/** Small facts about sequences and their multisets, shared by the proofs. */
module Sequences {
  lemma DropLastMultiset<T>(s: seq<T>)
    requires s != []
    ensures multiset(s[..|s| - 1]) == multiset(s) - multiset{s[|s| - 1]}
  {
    assert s == s[..|s| - 1] + [s[|s| - 1]];
  }

  lemma RemoveAtMultiset<T>(s: seq<T>, j: nat)
    requires j < |s|
    ensures multiset(s[..j] + s[j + 1..]) == multiset(s) - multiset{s[j]}
  {
    SplitAt(s, j);
  }

  lemma SplitAt<T>(s: seq<T>, j: nat)
    requires j < |s|
    ensures s == (s[..j] + [s[j]]) + s[j + 1..]
  {
  }

  lemma MultisetJoin<T>(now: seq<T>, owed: seq<T>, due: seq<T>, now': seq<T>, owed': seq<T>, due': seq<T>)
    requires multiset(now) + multiset(owed) == multiset(due)
    requires multiset(now') + multiset(owed') == multiset(due')
    ensures multiset(now + now') + multiset(owed + owed') == multiset(due + due')
  {
  }

  lemma SplitLast<T>(s: seq<T>)
    requires s != []
    ensures s == s[..|s| - 1] + [s[|s| - 1]]
  {
  }

  lemma AppendEmpty<T>(a: seq<T>)
    ensures a + [] == a
  {
  }

  lemma AppendEmptyLeft<T>(a: seq<T>)
    ensures [] + a == a
  {
  }

  lemma AppendAssoc<T>(a: seq<T>, b: seq<T>, c: seq<T>)
    ensures (a + b) + c == a + (b + c)
  {
  }
}
