/**
 * Log formatting of Custom_RoundTrippers_Middlewares/.../format. A
 * `strings.Builder` is a string the methods append to. Go ranges over a map
 * in an order it does not promise; the model takes that order as an input
 * `order` that lists every key exactly once, and proves that what is
 * written does not depend on it beyond the order of the lines.
 */
module Format {
  import opened Wrappers
  import opened Sequences

  /** `http.Header` and `url.Values`. */
  type Values = map<string, seq<string>>

  /** One iteration order of `range data`: every key once. */
  predicate IsOrder(order: seq<string>, data: Values)
  {
    && (forall i, j :: 0 <= i < j < |order| ==> order[i] != order[j])
    && (forall k :: k in data ==> k in order)
    && (forall i :: 0 <= i < |order| ==> order[i] in data)
  }

  /** `data[name]`; a missing name reads as a nil slice. */
  function ValuesOf(data: Values, name: string): seq<string>
  {
    if name in data then data[name] else []
  }

  /** The line written for one value: "name : value\n". */
  function Line(name: string, value: string): string
  {
    name + " : " + value + "\n"
  }

  /** The lines for one name, one per value. */
  function NameLines(name: string, values: seq<string>): seq<string>
  {
    if values == [] then []
    else NameLines(name, values[..|values| - 1]) + [Line(name, values[|values| - 1])]
  }

  /** The lines for the names in `order`, name after name. */
  function Lines(order: seq<string>, data: Values): seq<string>
  {
    if order == [] then []
    else Lines(order[..|order| - 1], data) + NameLines(order[|order| - 1], ValuesOf(data, order[|order| - 1]))
  }

  /** The lines written one after another. */
  function Concat(lines: seq<string>): string
  {
    if lines == [] then ""
    else Concat(lines[..|lines| - 1]) + lines[|lines| - 1]
  }

  lemma {:induction false} ConcatAppend(a: seq<string>, b: seq<string>)
    ensures Concat(a + b) == Concat(a) + Concat(b)
    decreases |b|
  {
    if b == [] {
      assert a + b == a;
    } else {
      assert (a + b)[..|a + b| - 1] == a + b[..|b| - 1];
      ConcatAppend(a, b[..|b| - 1]);
    }
  }

  /** A name's lines hold its values in slice order, one line each. */
  lemma {:induction false} NameLinesInOrder(name: string, values: seq<string>)
    ensures |NameLines(name, values)| == |values|
    ensures forall i :: 0 <= i < |values| ==> NameLines(name, values)[i] == Line(name, values[i])
  {
    if values != [] {
      NameLinesInOrder(name, values[..|values| - 1]);
    }
  }

  lemma {:induction false} LinesAppend(a: seq<string>, b: seq<string>, data: Values)
    ensures Lines(a + b, data) == Lines(a, data) + Lines(b, data)
    decreases |b|
  {
    if b == [] {
      assert a + b == a;
    } else {
      var b' := b[..|b| - 1];
      assert (a + b)[..|a + b| - 1] == a + b';
      LinesAppend(a, b', data);
      AppendAssoc(Lines(a, data), Lines(b', data), NameLines(b[|b| - 1], ValuesOf(data, b[|b| - 1])));
    }
  }

  /** Each name's lines form one unbroken block, at the place the name takes in the iteration. */
  lemma NameBlock(order: seq<string>, data: Values, i: nat)
    requires i < |order|
    ensures Lines(order, data) ==
      Lines(order[..i], data) + NameLines(order[i], ValuesOf(data, order[i])) + Lines(order[i + 1..], data)
  {
    SplitAt(order, i);
    LinesAppend(order[..i] + [order[i]], order[i + 1..], data);
    LinesAppend(order[..i], [order[i]], data);
    assert [order[i]][..0] == [];
  }

  /** Any reordering of the names writes the same lines, possibly in another order. */
  lemma {:induction false} LinesPermutation(a: seq<string>, b: seq<string>, data: Values)
    requires multiset(a) == multiset(b)
    ensures multiset(Lines(a, data)) == multiset(Lines(b, data))
    decreases |a|
  {
    if a == [] {
      assert |b| == |multiset(b)| == 0;
    } else {
      var x := a[|a| - 1];
      assert x in multiset(b);
      var j :| 0 <= j < |b| && b[j] == x;
      var rest := b[..j] + b[j + 1..];
      DropLastMultiset(a);
      RemoveAtMultiset(b, j);
      LinesPermutation(a[..|a| - 1], rest, data);
      NameBlock(b, data, j);
      LinesAppend(b[..j], b[j + 1..], data);
    }
  }

  /** In a list without repetitions every element occurs once. */
  lemma {:induction false} DistinctOnce(s: seq<string>, x: string)
    requires forall i, j :: 0 <= i < j < |s| ==> s[i] != s[j]
    ensures multiset(s)[x] == if x in s then 1 else 0
  {
    if s != [] {
      var init := s[..|s| - 1];
      DistinctOnce(init, x);
      SplitLast(s);
      assert x == s[|s| - 1] ==> x !in init;
    }
  }

  /** Two iteration orders of the same map list the same names. */
  lemma OrdersAgree(a: seq<string>, b: seq<string>, data: Values)
    requires IsOrder(a, data) && IsOrder(b, data)
    ensures multiset(a) == multiset(b)
  {
    forall x
      ensures multiset(a)[x] == multiset(b)[x]
    {
      DistinctOnce(a, x);
      DistinctOnce(b, x);
    }
  }

  /** The text `mapStrToStrSlice` writes for `data` under iteration order `order`. */
  function Rendered(order: seq<string>, data: Values): string
  {
    Concat(Lines(order, data))
  }

  /** Every iteration order writes the same multiset of lines. */
  lemma RenderedLinesAgree(a: seq<string>, b: seq<string>, data: Values)
    requires IsOrder(a, data) && IsOrder(b, data)
    ensures multiset(Lines(a, data)) == multiset(Lines(b, data))
  {
    OrdersAgree(a, b, data);
    LinesPermutation(a, b, data);
  }

  /** An empty map writes nothing. */
  lemma EmptyRendersEmpty(order: seq<string>)
    requires IsOrder(order, map[])
    ensures Rendered(order, map[]) == ""
  {
  }

  /** `mapStrToStrSlice`: for each name in iteration order, one line per value. */
  method MapStrToStrSlice(data: Values, order: seq<string>) returns (s: string)
    requires IsOrder(order, data)
    ensures s == Rendered(order, data)
  {
    s := "";
    var i := 0;
    while i < |order|
      invariant 0 <= i <= |order|
      invariant s == Concat(Lines(order[..i], data))
    {
      var name := order[i];
      assert name in data;
      s := WriteValues(s, name, data[name]);
      assert order[..i + 1][..i] == order[..i];
      ConcatAppend(Lines(order[..i], data), NameLines(name, data[name]));
      i := i + 1;
    }
    assert order[..i] == order;
  }

  /** The inner loop of `mapStrToStrSlice`: the lines of one name appended to what is written so far. */
  method WriteValues(prefix: string, name: string, values: seq<string>) returns (s: string)
    ensures s == prefix + Concat(NameLines(name, values))
  {
    s := prefix;
    var j := 0;
    while j < |values|
      invariant 0 <= j <= |values|
      invariant s == prefix + Concat(NameLines(name, values[..j]))
    {
      assert values[..j + 1][..j] == values[..j];
      ConcatAppend(NameLines(name, values[..j]), [Line(name, values[j])]);
      s := s + Line(name, values[j]);
      j := j + 1;
    }
    assert values[..j] == values;
  }

  /** The parts of an `*http.Request` that are logged. */
  datatype Request = Request(verb: string, path: string, header: Values, query: Values)

  /** The request's first log line. */
  function RequestLine(r: Request): string
  {
    "method: " + r.verb + ", endpoint: " + r.path + "\n"
  }

  /** A "headers:" or "query params:" block: written only for a non-empty map. */
  function Block(title: string, data: Values, order: seq<string>): string
  {
    if |data| != 0 then title + Rendered(order, data) else ""
  }

  /** Writes a titled block after `prefix`, as `RequestLog` and `ResponseLog` both do for a map. */
  method WriteBlock(prefix: string, title: string, data: Values, order: seq<string>) returns (s: string)
    requires IsOrder(order, data)
    ensures s == prefix + Block(title, data, order)
  {
    s := prefix;
    if |data| != 0 {
      s := s + title;
      var text := MapStrToStrSlice(data, order);
      s := s + text;
      AppendAssoc(prefix, title, text);
    } else {
      AppendEmpty(prefix);
    }
  }

  /** `RequestLog`: the request line, then the header block, then the query block. */
  method RequestLog(r: Request, headerOrder: seq<string>, queryOrder: seq<string>) returns (s: string)
    requires IsOrder(headerOrder, r.header) && IsOrder(queryOrder, r.query)
    ensures s == RequestLine(r) + Block("headers:\n", r.header, headerOrder) + Block("query params:\n", r.query, queryOrder)
  {
    s := RequestLine(r);
    s := WriteBlock(s, "headers:\n", r.header, headerOrder);
    s := WriteBlock(s, "query params:\n", r.query, queryOrder);
  }

  /**
   * The layout of a request log: it starts with the request line; right
   * after it comes "headers:" when there are headers, otherwise
   * "query params:" when there is a query, otherwise nothing; and when there
   * is a query its block ends the text.
   */
  lemma RequestLogLayout(r: Request, headerOrder: seq<string>, queryOrder: seq<string>)
    ensures var s := RequestLine(r) + Block("headers:\n", r.header, headerOrder) + Block("query params:\n", r.query, queryOrder);
      var rest := s[|RequestLine(r)|..];
      && s[..|RequestLine(r)|] == RequestLine(r)
      && (|r.header| != 0 ==> rest[..|"headers:\n"|] == "headers:\n")
      && (|r.header| == 0 && |r.query| != 0 ==> rest == "query params:\n" + Rendered(queryOrder, r.query))
      && (|r.header| == 0 && |r.query| == 0 ==> s == RequestLine(r))
      && (|r.query| != 0 ==> s[|s| - |"query params:\n" + Rendered(queryOrder, r.query)|..] == "query params:\n" + Rendered(queryOrder, r.query))
  {
    var hb := Block("headers:\n", r.header, headerOrder);
    var qb := Block("query params:\n", r.query, queryOrder);
    assert RequestLine(r) + hb + qb == RequestLine(r) + (hb + qb);
  }

  /** `fmt.Sprintf("%v", n)` for an `int`: decimal digits, with '-' in front of a negative value. */
  function Decimal(n: int): (s: string)
    ensures ParseDecimal(s) == n
    ensures s != [] && (s[0] == '-' <==> n < 0)
  {
    if n < 0 then
      var s := "-" + Digits(-n);
      DigitsRoundTrip(-n);
      assert s[1..] == Digits(-n);
      s
    else
      DigitsRoundTrip(n);
      DigitsWellFormed(n);
      Digits(n)
  }

  /** The decimal digits of `n`, without leading zeros ("0" for zero). */
  function Digits(n: nat): string
  {
    if n < 10 then [DigitChar(n)] else Digits(n / 10) + [DigitChar(n % 10)]
  }

  function DigitChar(d: nat): char
    requires d < 10
  {
    ('0' as int + d) as char
  }

  /** The value of a string of decimal digits. */
  function DigitsValue(s: string): int
  {
    if s == [] then 0 else DigitsValue(s[..|s| - 1]) * 10 + (s[|s| - 1] as int - '0' as int)
  }

  /** Reading the text back: an optional '-', then digits. */
  function ParseDecimal(s: string): int
  {
    if s != [] && s[0] == '-' then -DigitsValue(s[1..]) else DigitsValue(s)
  }

  /** `Digits` writes only digits, with no leading zero. */
  lemma {:induction false} DigitsWellFormed(n: nat)
    ensures Digits(n) != [] && (forall i :: 0 <= i < |Digits(n)| ==> '0' <= Digits(n)[i] <= '9')
    ensures |Digits(n)| > 1 ==> Digits(n)[0] != '0'
  {
    if n >= 10 {
      DigitsWellFormed(n / 10);
      assert Digits(n)[0] == Digits(n / 10)[0];
    }
  }

  /** The digits of `n` read back as `n`. */
  lemma {:induction false} DigitsRoundTrip(n: nat)
    ensures DigitsValue(Digits(n)) == n
  {
    if n >= 10 {
      DigitsRoundTrip(n / 10);
      var s := Digits(n);
      assert s[..|s| - 1] == Digits(n / 10);
    }
  }

  /** `ResponseLog`: the header block, then the error text with no newline of its own, then the status line. */
  method ResponseLog(code: int, header: Values, headerOrder: seq<string>, err: Option<string>) returns (s: string)
    requires IsOrder(headerOrder, header)
    ensures s == Block("headers:\n", header, headerOrder) + (if err.Some? then err.value else "") + StatusLine(code)
  {
    s := WriteBlock("", "headers:\n", header, headerOrder);
    ghost var headers := s;
    assert headers == Block("headers:\n", header, headerOrder) by {
      AppendEmptyLeft(Block("headers:\n", header, headerOrder));
    }
    if err.Some? {
      s := s + err.value;
    } else {
      AppendEmpty(s);
    }
    ghost var written := s;
    assert written == headers + (if err.Some? then err.value else "");
    s := s + StatusLine(code);
  }

  /** The last line of a response log. */
  function StatusLine(code: int): string
  {
    "status code: " + Decimal(code) + "\n"
  }

  /**
   * A response log always ends with its status line, from which the code
   * reads back; with no headers and no error it is that line alone.
   */
  lemma ResponseLogLayout(code: int, header: Values, headerOrder: seq<string>, err: Option<string>)
    ensures var s := Block("headers:\n", header, headerOrder) + (if err.Some? then err.value else "") + StatusLine(code);
      && s[|s| - |StatusLine(code)|..] == StatusLine(code)
      && ParseDecimal(StatusLine(code)[|"status code: "|..|StatusLine(code)| - 1]) == code
      && (|header| == 0 && err.None? ==> s == StatusLine(code))
      && (|header| != 0 ==> s[..|"headers:\n"|] == "headers:\n")
  {
    var line := StatusLine(code);
    assert line[|"status code: "|..|line| - 1] == Decimal(code);
  }
}
