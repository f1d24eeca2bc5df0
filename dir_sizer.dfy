/**
 * The directory-size aggregator of Concurrency/homework/storage/dir_sizer.go,
 * run sequentially over a finite tree.
 *
 * Every directory's `Ls` outcome and every file's `Stat` outcome is a fixed
 * value in the tree. A visit (`processDir`) sends exactly one message: the
 * directory's own partial result, or the error that stopped it. `worker`
 * either hands a sub-directory to a new task (a spawn, when the
 * non-blocking send on the token channel succeeds) or visits it inline.
 * Which of the two happens depends on the scheduler, so the model takes the
 * outcomes of those selects as an input `schedule` and proves that, for
 * every schedule, the messages sent and the directories visited are those
 * of the inline traversal up to order, and that the total and whether an
 * error is reported depend only on the tree. Which error is reported, when
 * several directories fail, may depend on the schedule.
 */
module DirSizer {
  import opened Wrappers
  import opened Sequences

  /** An I/O failure reported by `Ls` or `Stat`; the sizer passes it on unchanged. */
  datatype IoError = IoError(code: nat)

  /** The fixed outcome of `Stat` on one file. */
  datatype StatOutcome = Stat(size: int) | StatFailed(err: IoError)

  datatype File = File(stat: StatOutcome)

  /** The fixed outcome of `Ls` on one directory: its children, or an error. */
  datatype LsOutcome = Listing(dirs: seq<Dir>, files: seq<File>) | LsFailed(err: IoError)

  datatype Dir = Dir(ls: LsOutcome)

  /** `Result`: total size and number of files. */
  datatype Result = Result(size: int, count: int)

  const Zero := Result(0, 0)

  /** The component-wise sum `listenForResults` applies to each partial. */
  function Add(a: Result, b: Result): Result
  {
    Result(a.size + b.size, a.count + b.count)
  }

  /** One send of `processDir`: on the `res` channel or on the `err` channel. */
  datatype Message = Partial(result: Result) | Failure(err: IoError)

  /** What the listener observes on its `select`. */
  datatype Event = Received(msg: Message) | ResClosed | ErrClosed

  // ---------------------------------------------------------------------
  // One directory visit

  /** The size a successful `Stat` reports; a failed one contributes nothing. */
  function ReportedSize(f: File): int
  {
    if f.stat.Stat? then f.stat.size else 0
  }

  /** Sum of the reported sizes of `files`. */
  function SumSizes(files: seq<File>): int
  {
    if files == [] then 0 else SumSizes(files[..|files| - 1]) + ReportedSize(files[|files| - 1])
  }

  predicate AllStatsOk(files: seq<File>)
  {
    forall i :: 0 <= i < |files| ==> files[i].stat.Stat?
  }

  /** The error of the first file, in listing order, whose `Stat` fails. */
  function FirstStatError(files: seq<File>): Option<IoError>
  {
    if files == [] then None
    else if files[0].stat.StatFailed? then Some(files[0].stat.err)
    else FirstStatError(files[1..])
  }

  /** The single message `processDir` sends for `dir`. */
  function Visit(dir: Dir): Message
  {
    match dir.ls
    case LsFailed(e) => Failure(e)
    case Listing(_, files) =>
      match FirstStatError(files)
      case Some(e) => Failure(e)
      case None => Partial(Result(SumSizes(files), |files|))
  }

  /** The sub-directories `processDir` returns for expansion. */
  function Expanded(dir: Dir): seq<Dir>
  {
    if dir.ls.Listing? && Visit(dir).Partial? then dir.ls.dirs else []
  }

  lemma {:induction false} FirstStatErrorNone(files: seq<File>)
    ensures FirstStatError(files) == None <==> AllStatsOk(files)
  {
    if files != [] {
      FirstStatErrorNone(files[1..]);
      assert forall i :: 1 <= i < |files| ==> files[i] == files[1..][i - 1];
    }
  }

  lemma {:induction false} FirstStatErrorSome(files: seq<File>, e: IoError)
    requires FirstStatError(files) == Some(e)
    ensures exists k :: 0 <= k < |files| && files[k].stat == StatFailed(e) && AllStatsOk(files[..k])
  {
    if files[0].stat.StatFailed? {
      assert files[0].stat == StatFailed(e) && AllStatsOk(files[..0]);
    } else {
      FirstStatErrorSome(files[1..], e);
      var k :| 0 <= k < |files[1..]| && files[1..][k].stat == StatFailed(e) && AllStatsOk(files[1..][..k]);
      assert files[..k + 1] == [files[0]] + files[1..][..k];
      assert files[k + 1].stat == StatFailed(e) && AllStatsOk(files[..k + 1]);
    }
  }

  /**
   * The three outcomes of `processDir`: a failed `Ls` reports its error and
   * expands nothing; a failing `Stat` reports the first such error and
   * expands nothing, even if earlier files were already summed; otherwise the
   * partial result covers exactly the direct files, and every sub-directory
   * is returned for expansion.
   */
  lemma ProcessDirOutcomes(dir: Dir)
    ensures dir.ls.LsFailed? ==> Visit(dir) == Failure(dir.ls.err) && Expanded(dir) == []
    ensures dir.ls.Listing? && !AllStatsOk(dir.ls.files) ==>
      Expanded(dir) == [] &&
      exists k :: 0 <= k < |dir.ls.files| && dir.ls.files[k].stat.StatFailed? &&
        Visit(dir) == Failure(dir.ls.files[k].stat.err) && AllStatsOk(dir.ls.files[..k])
    ensures dir.ls.Listing? && AllStatsOk(dir.ls.files) ==>
      Visit(dir) == Partial(Result(SumSizes(dir.ls.files), |dir.ls.files|)) &&
      Expanded(dir) == dir.ls.dirs
  {
    if dir.ls.Listing? {
      FirstStatErrorNone(dir.ls.files);
      if !AllStatsOk(dir.ls.files) {
        FirstStatErrorSome(dir.ls.files, FirstStatError(dir.ls.files).value);
      }
    }
  }

  // ---------------------------------------------------------------------
  // The whole traversal, visiting every sub-directory inline

  /** The messages sent when `dir` and everything it expands are visited inline. */
  function Trace(dir: Dir): seq<Message>
    decreases dir, 1
  {
    if dir.ls.Listing? && Visit(dir).Partial? then [Visit(dir)] + TraceAll(dir.ls.dirs)
    else [Visit(dir)]
  }

  function TraceAll(dirs: seq<Dir>): seq<Message>
    decreases dirs, 0
  {
    if dirs == [] then [] else TraceAll(dirs[..|dirs| - 1]) + Trace(dirs[|dirs| - 1])
  }

  /** The directories visited, one per `processDir` call, in the same order. */
  ghost function Reach(dir: Dir): seq<Dir>
    decreases dir, 1
  {
    if dir.ls.Listing? && Visit(dir).Partial? then [dir] + ReachAll(dir.ls.dirs)
    else [dir]
  }

  ghost function ReachAll(dirs: seq<Dir>): seq<Dir>
    decreases dirs, 0
  {
    if dirs == [] then [] else ReachAll(dirs[..|dirs| - 1]) + Reach(dirs[|dirs| - 1])
  }

  /** No `Ls` and no `Stat` fails anywhere in the tree. */
  predicate Healthy(dir: Dir)
    decreases dir, 1
  {
    dir.ls.Listing? && AllStatsOk(dir.ls.files) && AllHealthy(dir.ls.dirs)
  }

  predicate AllHealthy(dirs: seq<Dir>)
    decreases dirs, 0
  {
    dirs != [] ==> AllHealthy(dirs[..|dirs| - 1]) && Healthy(dirs[|dirs| - 1])
  }

  /** Every file of the tree, each once, for a tree whose listings succeed. */
  function AllFiles(dir: Dir): seq<File>
    decreases dir, 1
  {
    if dir.ls.Listing? then dir.ls.files + AllFilesIn(dir.ls.dirs) else []
  }

  function AllFilesIn(dirs: seq<Dir>): seq<File>
    decreases dirs, 0
  {
    if dirs == [] then [] else AllFilesIn(dirs[..|dirs| - 1]) + AllFiles(dirs[|dirs| - 1])
  }

  /** The answer a correct traversal gives: size and number of all reachable files. */
  function TreeTotal(dir: Dir): Result
  {
    Result(SumSizes(AllFiles(dir)), |AllFiles(dir)|)
  }

  /** Sum of the partial results among `ms`; errors contribute nothing. */
  function SumPartials(ms: seq<Message>): Result
  {
    if ms == [] then Zero
    else
      Add(SumPartials(ms[..|ms| - 1]), Contribution(ms[|ms| - 1]))
  }

  /** What one message adds to the running total: its partial result, or nothing for an error. */
  function Contribution(m: Message): Result
  {
    if m.Partial? then m.result else Zero
  }

  predicate NoFailure(ms: seq<Message>)
  {
    forall k :: 0 <= k < |ms| ==> ms[k].Partial?
  }

  lemma {:induction false} SumSizesAppend(a: seq<File>, b: seq<File>)
    ensures SumSizes(a + b) == SumSizes(a) + SumSizes(b)
    decreases |b|
  {
    if b != [] {
      assert (a + b)[..|a + b| - 1] == a + b[..|b| - 1];
      assert (a + b)[|a + b| - 1] == b[|b| - 1];
      SumSizesAppend(a, b[..|b| - 1]);
    } else {
      assert a + b == a;
    }
  }

  lemma {:induction false} SumPartialsAppend(a: seq<Message>, b: seq<Message>)
    ensures SumPartials(a + b) == Add(SumPartials(a), SumPartials(b))
    decreases |b|
  {
    if b != [] {
      assert (a + b)[..|a + b| - 1] == a + b[..|b| - 1];
      SumPartialsAppend(a, b[..|b| - 1]);
    } else {
      assert a + b == a;
    }
  }

  /** The aggregate does not depend on the order in which the partials arrive. */
  lemma {:induction false} SumPartialsPermutation(a: seq<Message>, b: seq<Message>)
    requires multiset(a) == multiset(b)
    ensures SumPartials(a) == SumPartials(b)
    decreases |a|
  {
    if a == [] {
      assert |b| == |multiset(b)| == 0;
    } else {
      var x := a[|a| - 1];
      assert x in multiset(b);
      var j :| 0 <= j < |b| && b[j] == x;
      var rest := b[..j] + b[j + 1..];
      DropLastMultiset(a);
      RemoveAtMultiset(b, j);
      SumPartialsPermutation(a[..|a| - 1], rest);
      SumPartialsRemove(b, j);
    }
  }

  /** Removing one message from anywhere takes exactly its contribution out of the sum. */
  lemma {:induction false} SumPartialsRemove(ms: seq<Message>, j: nat)
    requires j < |ms|
    ensures SumPartials(ms) == Add(SumPartials(ms[..j] + ms[j + 1..]), Contribution(ms[j]))
    decreases |ms|
  {
    var init, last := ms[..|ms| - 1], ms[|ms| - 1];
    var rest := ms[..j] + ms[j + 1..];
    if j == |ms| - 1 {
      assert rest == init;
    } else {
      SumPartialsRemove(init, j);
      var restInit := init[..j] + init[j + 1..];
      assert rest[..|rest| - 1] == restInit;
      assert rest[|rest| - 1] == last;
    }
  }

  lemma NoFailureAppend(a: seq<Message>, b: seq<Message>)
    ensures NoFailure(a + b) <==> NoFailure(a) && NoFailure(b)
  {
    if NoFailure(a) && NoFailure(b) {
      forall k | 0 <= k < |a + b| ensures (a + b)[k].Partial? {
        if k >= |a| { assert (a + b)[k] == b[k - |a|]; }
      }
    }
    if NoFailure(a + b) {
      forall k | 0 <= k < |a| ensures a[k].Partial? {
        assert (a + b)[k] == a[k];
      }
      forall k | 0 <= k < |b| ensures b[k].Partial? {
        assert (a + b)[|a| + k] == b[k];
      }
    }
  }

  /** With no failure anywhere, the traversal sends only partials and they add up to the tree total. */
  lemma {:induction false} TraceHealthy(dir: Dir)
    requires Healthy(dir)
    ensures NoFailure(Trace(dir))
    ensures SumPartials(Trace(dir)) == TreeTotal(dir)
    decreases dir, 1
  {
    ProcessDirOutcomes(dir);
    var v := Visit(dir);
    TraceAllHealthy(dir.ls.dirs);
    NoFailureAppend([v], TraceAll(dir.ls.dirs));
    SumPartialsAppend([v], TraceAll(dir.ls.dirs));
    SumSizesAppend(dir.ls.files, AllFilesIn(dir.ls.dirs));
    assert SumPartials([v]) == Add(Zero, v.result) by { assert [v][..0] == []; }
  }

  lemma {:induction false} TraceAllHealthy(dirs: seq<Dir>)
    requires AllHealthy(dirs)
    ensures NoFailure(TraceAll(dirs))
    ensures SumPartials(TraceAll(dirs)) == Result(SumSizes(AllFilesIn(dirs)), |AllFilesIn(dirs)|)
    decreases dirs, 0
  {
    if dirs != [] {
      var init, last := dirs[..|dirs| - 1], dirs[|dirs| - 1];
      TraceAllHealthy(init);
      TraceHealthy(last);
      NoFailureAppend(TraceAll(init), Trace(last));
      SumPartialsAppend(TraceAll(init), Trace(last));
      SumSizesAppend(AllFilesIn(init), AllFiles(last));
    }
  }

  /** A failure anywhere in the tree shows up as a failure message in the traversal. */
  lemma {:induction false} TraceUnhealthy(dir: Dir)
    requires !Healthy(dir)
    ensures !NoFailure(Trace(dir))
    decreases dir, 1
  {
    ProcessDirOutcomes(dir);
    if dir.ls.Listing? && AllStatsOk(dir.ls.files) {
      TraceAllUnhealthy(dir.ls.dirs);
      NoFailureAppend([Visit(dir)], TraceAll(dir.ls.dirs));
    } else {
      assert Trace(dir)[0].Failure?;
    }
  }

  lemma {:induction false} TraceAllUnhealthy(dirs: seq<Dir>)
    requires !AllHealthy(dirs)
    ensures !NoFailure(TraceAll(dirs))
    decreases dirs, 0
  {
    var init, last := dirs[..|dirs| - 1], dirs[|dirs| - 1];
    NoFailureAppend(TraceAll(init), Trace(last));
    if !AllHealthy(init) {
      TraceAllUnhealthy(init);
    } else {
      TraceUnhealthy(last);
    }
  }

  /** The traversal reports an error if and only if some `Ls` or `Stat` fails. */
  lemma TraceFailsIff(dir: Dir)
    ensures NoFailure(Trace(dir)) <==> Healthy(dir)
  {
    if Healthy(dir) { TraceHealthy(dir); } else { TraceUnhealthy(dir); }
  }

  lemma NoFailureMultiset(a: seq<Message>, b: seq<Message>)
    requires multiset(a) == multiset(b)
    ensures NoFailure(a) <==> NoFailure(b)
  {
    if NoFailure(a) {
      forall k | 0 <= k < |b| ensures b[k].Partial? {
        assert b[k] in multiset(a);
      }
    }
    if NoFailure(b) {
      forall k | 0 <= k < |a| ensures a[k].Partial? {
        assert a[k] in multiset(b);
      }
    }
  }

  // ---------------------------------------------------------------------
  // The listener

  /** The messages received, in arrival order. */
  function Messages(events: seq<Event>): seq<Message>
  {
    if events == [] then []
    else
      var last := events[|events| - 1];
      Messages(events[..|events| - 1]) + (if last.Received? then [last.msg] else [])
  }

  /** Channel semantics: once `res` reports closed, its buffer has been drained. */
  predicate DrainedBeforeClose(events: seq<Event>)
  {
    forall i, j :: 0 <= i < j < |events| && events[i].ResClosed? ==> !events[j].Received?
  }

  /** The messages sent, each delivered on its channel, in send order. */
  function Deliveries(ms: seq<Message>): (events: seq<Event>)
    ensures |events| == |ms|
    ensures forall k :: 0 <= k < |ms| ==> events[k] == Received(ms[k])
  {
    if ms == [] then [] else Deliveries(ms[..|ms| - 1]) + [Received(ms[|ms| - 1])]
  }

  lemma {:induction false} MessagesOfDeliveries(ms: seq<Message>)
    ensures Messages(Deliveries(ms)) == ms
    decreases |ms|
  {
    if ms != [] {
      var events := Deliveries(ms);
      assert events[..|events| - 1] == Deliveries(ms[..|ms| - 1]);
      MessagesOfDeliveries(ms[..|ms| - 1]);
    }
  }

  lemma {:induction false} MessagesAfterClose(events: seq<Event>, i: nat)
    requires i < |events| && events[i].ResClosed? && DrainedBeforeClose(events)
    ensures Messages(events) == Messages(events[..i])
    decreases |events|
  {
    if i < |events| - 1 {
      var init := events[..|events| - 1];
      assert init[..i] == events[..i];
      assert DrainedBeforeClose(init) by {
        forall a, b | 0 <= a < b < |init| && init[a].ResClosed? ensures !init[b].Received? {
          assert init[a] == events[a] && init[b] == events[b];
        }
      }
      MessagesAfterClose(init, i);
    } else {
      assert events[..i] == events[..|events| - 1];
    }
  }

  /**
   * `listenForResults` as corrected: a partial is added to the running total,
   * the first error is returned at once with an empty result, the closing of
   * `err` is not a reason to stop, and the loop ends when `res` is closed and
   * drained (or the stream ends).
   */
  method ListenForResults(events: seq<Event>) returns (total: Result, err: Option<IoError>)
    requires DrainedBeforeClose(events)
    ensures err.None? <==> NoFailure(Messages(events))
    ensures err.Some? ==> total == Zero && FirstFailure(Messages(events), err.value)
    ensures err.None? ==> total == SumPartials(Messages(events))
  {
    total := Zero;
    var i := 0;
    while i < |events|
      invariant 0 <= i <= |events|
      invariant NoFailure(Messages(events[..i]))
      invariant total == SumPartials(Messages(events[..i]))
    {
      var prefix := Messages(events[..i]);
      assert events[..i + 1][..i] == events[..i];
      var event := events[i];
      if event.ResClosed? {
        MessagesAfterClose(events, i);
        return total, None;
      } else if event.Received? && event.msg.Failure? {
        assert Messages(events[..i + 1]) == prefix + [event.msg];
        MessagesPrefix(events, i + 1);
        assert Messages(events)[..|prefix|] == prefix && Messages(events)[|prefix|] == event.msg;
        return Zero, Some(event.msg.err);
      } else if event.Received? {
        total := Add(total, event.msg.result);
        assert Messages(events[..i + 1]) == prefix + [event.msg];
        assert SumPartials(prefix + [event.msg]) == total by {
          assert (prefix + [event.msg])[..|prefix|] == prefix;
        }
        NoFailureAppend(prefix, [event.msg]);
      } else {
        assert Messages(events[..i + 1]) == prefix;
      }
      i := i + 1;
    }
    assert events[..i] == events;
    err := None;
  }

  lemma {:induction false} MessagesPrefix(events: seq<Event>, n: nat)
    requires n <= |events|
    ensures Messages(events[..n]) <= Messages(events)
    decreases |events|
  {
    if n < |events| {
      var init := events[..|events| - 1];
      assert init[..n] == events[..n];
      MessagesPrefix(init, n);
    } else {
      assert events[..n] == events;
    }
  }

  /**
   * `listenForResults` as written (dir_sizer.go:62-86): the loop also stops,
   * reporting success, as soon as the `err` channel is seen closed.
   */
  function ListenAsWritten(events: seq<Event>, total: Result): (r: (Result, Option<IoError>))
    ensures r.1.Some? ==> r.0 == Zero && Received(Failure(r.1.value)) in events
    decreases |events|
  {
    if events == [] then (total, None)
    else
      match events[0]
      case Received(Failure(e)) => (Zero, Some(e))
      case Received(Partial(r)) => ListenAsWritten(events[1..], Add(total, r))
      case ResClosed => (total, None)
      case ErrClosed => (total, None)
  }

  /**
   * When nothing closes before the messages are read, the listener as written
   * reads them in send order: it adds up the partials onto `total` and stops
   * at the first error with an empty result.
   */
  lemma {:induction false} ListenAsWrittenInOrder(ms: seq<Message>, total: Result)
    ensures var (sum, err) := ListenAsWritten(Deliveries(ms), total);
      && (err.None? <==> NoFailure(ms))
      && (err.None? ==> sum == Add(total, SumPartials(ms)))
      && (err.Some? ==> sum == Zero && FirstFailure(ms, err.value))
    decreases |ms|
  {
    var events := Deliveries(ms);
    if ms == [] {
      assert events == [];
    } else {
      var rest := ms[1..];
      assert events[0] == Received(ms[0]);
      assert events[1..] == Deliveries(rest);
      match ms[0]
      case Failure(e) =>
        assert ms[..0] == [];
        assert FirstFailure(ms, e);
      case Partial(r) =>
        assert ListenAsWritten(events, total) == ListenAsWritten(Deliveries(rest), Add(total, r));
        ListenAsWrittenInOrder(rest, Add(total, r));
        PartialsFront(ms);
    }
  }

  /** `e` is the first failure among `ms`. */
  predicate FirstFailure(ms: seq<Message>, e: IoError)
  {
    exists k :: 0 <= k < |ms| && ms[k] == Failure(e) && NoFailure(ms[..k])
  }

  lemma FirstFailureUnique(ms: seq<Message>, e1: IoError, e2: IoError)
    requires FirstFailure(ms, e1) && FirstFailure(ms, e2)
    ensures e1 == e2
  {
    var k1 :| 0 <= k1 < |ms| && ms[k1] == Failure(e1) && NoFailure(ms[..k1]);
    var k2 :| 0 <= k2 < |ms| && ms[k2] == Failure(e2) && NoFailure(ms[..k2]);
    NoFailurePrefix(ms, k1);
    NoFailurePrefix(ms, k2);
  }

  lemma NoFailurePrefix(ms: seq<Message>, n: nat)
    requires n <= |ms| && NoFailure(ms[..n])
    ensures forall j :: 0 <= j < n ==> ms[j].Partial?
  {
    forall j | 0 <= j < n ensures ms[j].Partial? {
      assert ms[..n][j] == ms[j];
    }
  }

  /** An answer that adds up `ms` or reports its first failure is the one the listener as written gives on `ms` in send order. */
  lemma AgreesWithAsWritten(ms: seq<Message>, total: Result, err: Option<IoError>)
    requires err.None? <==> NoFailure(ms)
    requires err.None? ==> total == SumPartials(ms)
    requires err.Some? ==> total == Zero && FirstFailure(ms, err.value)
    ensures (total, err) == ListenAsWritten(Deliveries(ms), Zero)
  {
    ListenAsWrittenInOrder(ms, Zero);
    var (total', err') := ListenAsWritten(Deliveries(ms), Zero);
    if err.Some? && err'.Some? {
      FirstFailureUnique(ms, err.value, err'.value);
    }
  }

  /** A leading partial adds to the sum and changes neither whether nor where the first failure is. */
  lemma PartialsFront(ms: seq<Message>)
    requires ms != [] && ms[0].Partial?
    ensures NoFailure(ms) <==> NoFailure(ms[1..])
    ensures SumPartials(ms) == Add(ms[0].result, SumPartials(ms[1..]))
    ensures forall e :: FirstFailure(ms[1..], e) ==> FirstFailure(ms, e)
  {
    var rest := ms[1..];
    assert ms == [ms[0]] + rest;
    NoFailureAppend([ms[0]], rest);
    SumPartialsAppend([ms[0]], rest);
    assert SumPartials([ms[0]]) == Contribution(ms[0]) by {
      assert [ms[0]][..0] == [];
    }
    forall e | FirstFailure(rest, e) ensures FirstFailure(ms, e) {
      var k :| 0 <= k < |rest| && rest[k] == Failure(e) && NoFailure(rest[..k]);
      assert ms[k + 1] == Failure(e);
      assert ms[..k + 1] == [ms[0]] + rest[..k];
      NoFailureAppend([ms[0]], rest[..k]);
    }
  }

  /**
   * Delivered in send order, the listener as written gives the answer the
   * tree decides, whatever the schedule.
   */
  lemma AsWrittenInSendOrder(root: Dir, sent: seq<Message>)
    requires multiset(sent) == multiset(Trace(root))
    ensures var (total, err) := ListenAsWritten(Deliveries(sent), Zero);
      && (err.None? <==> Healthy(root))
      && (err.None? ==> total == TreeTotal(root))
      && (err.Some? ==> total == Zero && Failure(err.value) in Trace(root))
  {
    ListenAsWrittenInOrder(sent, Zero);
    SentMeetsTree(root, sent);
    var (total, err) := ListenAsWritten(Deliveries(sent), Zero);
    if err.Some? {
      var k :| 0 <= k < |sent| && sent[k] == Failure(err.value) && NoFailure(sent[..k]);
      assert sent[k] in sent;
    }
  }

  /**
   * A root holding one file of 10 bytes: `processDir` puts its partial in
   * the buffered `res` channel, the worker finishes, and the closer closes
   * `res` and then `err`. Both select cases are then ready; if the closed
   * `err` case is chosen first, the loop as written returns an empty total
   * with no error, while the tree total is one file of 10 bytes. The
   * corrected listener, on the same arrival order, returns the right total.
   */
  lemma EarlyCloseDropsPartials()
    ensures
      var root := Dir(Listing([], [File(Stat(10))]));
      var events := [ErrClosed, Received(Partial(Result(10, 1))), ResClosed];
      && Trace(root) == [Partial(Result(10, 1))]
      && Healthy(root) && TreeTotal(root) == Result(10, 1)
      && DrainedBeforeClose(events)
      && Messages(events) == Trace(root)
      && ListenAsWritten(events, Zero) == (Zero, None)
  {
    var root := Dir(Listing([], [File(Stat(10))]));
    var files := [File(Stat(10))];
    assert files[..0] == [];
    assert SumSizes(files) == 10;
    assert AllFilesIn([]) == [];
    assert AllFiles(root) == files;
    assert TraceAll([]) == [];
    var events := [ErrClosed, Received(Partial(Result(10, 1))), ResClosed];
    assert events[..1][..0] == [];
    assert Messages(events[..1]) == [];
    assert events[..2][..1] == events[..1];
    assert Messages(events[..2]) == [Partial(Result(10, 1))];
    assert events[..|events| - 1] == events[..2];
    assert Messages(events) == [Partial(Result(10, 1))];
  }

  lemma TraceUnfold(dir: Dir)
    ensures Trace(dir) == [Visit(dir)] + TraceAll(Expanded(dir))
    ensures Reach(dir) == [dir] + ReachAll(Expanded(dir))
  {
  }

  /**
   * `sentNow`, `visitedNow` and the traversals still owed by `spawned`
   * together are the messages `trace` and the directories `reach`, as multisets.
   */
  ghost predicate Covers(sentNow: seq<Message>, visitedNow: seq<Dir>, spawned: seq<Dir>, trace: seq<Message>, reach: seq<Dir>)
  {
    && multiset(sentNow) + multiset(TraceAll(spawned)) == multiset(trace)
    && multiset(visitedNow) + multiset(ReachAll(spawned)) == multiset(reach)
  }

  lemma TraceAllSnoc(dirs: seq<Dir>, d: Dir)
    ensures TraceAll(dirs + [d]) == TraceAll(dirs) + Trace(d)
    ensures ReachAll(dirs + [d]) == ReachAll(dirs) + Reach(d)
  {
    assert (dirs + [d])[..|dirs|] == dirs;
  }

  lemma {:induction false} TraceAllAppend(a: seq<Dir>, b: seq<Dir>)
    ensures TraceAll(a + b) == TraceAll(a) + TraceAll(b)
    ensures ReachAll(a + b) == ReachAll(a) + ReachAll(b)
    decreases |b|
  {
    if b == [] {
      assert a + b == a;
    } else {
      var init, last := b[..|b| - 1], b[|b| - 1];
      assert a + b == (a + init) + [last];
      assert b == init + [last];
      TraceAllSnoc(a + init, last);
      TraceAllSnoc(init, last);
      TraceAllAppend(a, init);
    }
  }

  lemma CoversNone(dirs: seq<Dir>)
    ensures Covers([], [], [], TraceAll(dirs[..0]), ReachAll(dirs[..0]))
  {
    assert dirs[..0] == [];
  }

  /** The visit itself, followed by the accounting for everything it expands, covers the directory's traversal. */
  lemma CoversVisit(dir: Dir, s: seq<Message>, v: seq<Dir>, p: seq<Dir>)
    requires Covers(s, v, p, TraceAll(Expanded(dir)), ReachAll(Expanded(dir)))
    ensures Covers([Visit(dir)] + s, [dir] + v, p, Trace(dir), Reach(dir))
  {
    TraceUnfold(dir);
  }

  lemma CoversNext(s: seq<Message>, v: seq<Dir>, p: seq<Dir>, dirs: seq<Dir>, i: nat,
                   s': seq<Message>, v': seq<Dir>, p': seq<Dir>)
    requires i < |dirs|
    requires Covers(s, v, p, TraceAll(dirs[..i]), ReachAll(dirs[..i]))
    requires Covers(s', v', p', Trace(dirs[i]), Reach(dirs[i]))
    ensures Covers(s + s', v + v', p + p', TraceAll(dirs[..i + 1]), ReachAll(dirs[..i + 1]))
  {
    assert dirs[..i + 1] == dirs[..i] + [dirs[i]];
    TraceAllSnoc(dirs[..i], dirs[i]);
    TraceAllAppend(p, p');
    MultisetJoin(s, TraceAll(p), TraceAll(dirs[..i]), s', TraceAll(p'), Trace(dirs[i]));
    MultisetJoin(v, ReachAll(p), ReachAll(dirs[..i]), v', ReachAll(p'), Reach(dirs[i]));
  }

  lemma CoversRoot(root: Dir)
    ensures Covers([], [], [root], Trace(root), Reach(root))
  {
    TraceAllSnoc([], root);
    assert [] + [root] == [root];
  }

  lemma CoversPop(sent: seq<Message>, visited: seq<Dir>, rest: seq<Dir>, task: Dir,
                  s: seq<Message>, vs: seq<Dir>, p: seq<Dir>, trace: seq<Message>, reach: seq<Dir>)
    requires Covers(sent, visited, rest + [task], trace, reach)
    requires Covers(s, vs, p, Trace(task), Reach(task))
    requires s != []
    ensures Covers(sent + s, visited + vs, rest + p, trace, reach)
    ensures |sent| < |sent + s| <= |trace|
  {
    TraceAllSnoc(rest, task);
    TraceAllAppend(rest, p);
    assert |multiset(sent + s)| <= |multiset(trace)|;
  }

  lemma CoversDone(sent: seq<Message>, visited: seq<Dir>, trace: seq<Message>, reach: seq<Dir>)
    requires Covers(sent, visited, [], trace, reach)
    ensures multiset(sent) == multiset(trace) && multiset(visited) == multiset(reach)
  {
  }

  lemma ExpandedSmaller(dir: Dir, i: nat)
    requires i < |Expanded(dir)|
    ensures Expanded(dir)[i] < dir
  {
    assert Expanded(dir)[i] in dir.ls.dirs;
  }

  /** Whatever order the messages were sent in, they decide the outcome as the inline trace does. */
  lemma SentMeetsTree(root: Dir, sent: seq<Message>)
    requires multiset(sent) == multiset(Trace(root))
    ensures NoFailure(sent) <==> Healthy(root)
    ensures NoFailure(sent) ==> SumPartials(sent) == TreeTotal(root)
    ensures forall m :: m in sent ==> m in Trace(root)
  {
    NoFailureMultiset(sent, Trace(root));
    TraceFailsIff(root);
    if NoFailure(sent) {
      SumPartialsPermutation(sent, Trace(root));
      TraceHealthy(root);
    }
    forall m | m in sent ensures m in Trace(root) {
      assert m in multiset(Trace(root));
    }
  }

  // ---------------------------------------------------------------------
  // The sizer

  class Sizer {
    /** Outcomes of the non-blocking token send in `worker`, one per sub-directory, in order. */
    var schedule: seq<bool>
    /** Every message sent on `res` or `err`, in send order. */
    var sent: seq<Message>
    /** The directory of every `processDir` call so far. */
    ghost var visited: seq<Dir>
    /** Sub-directories handed to spawned tasks that have not yet run. */
    var pending: seq<Dir>

    /** `NewSizer`: fresh channels and no outstanding work. */
    constructor (schedule: seq<bool>)
      ensures this.schedule == schedule && sent == [] && visited == [] && pending == []
    {
      this.schedule := schedule;
      sent := [];
      visited := [];
      pending := [];
    }

    /** `processDir`: list, stat every direct file, send one message, return what to expand. */
    method ProcessDir(dir: Dir) returns (dirs: seq<Dir>)
      modifies this`sent, this`visited
      ensures sent == old(sent) + [Visit(dir)]
      ensures visited == old(visited) + [dir]
      ensures dirs == Expanded(dir)
    {
      visited := visited + [dir];
      match dir.ls
      case LsFailed(e) =>
        sent := sent + [Failure(e)];
        return [];
      case Listing(subDirs, files) =>
        var dirSize, fileCount := 0, 0;
        var i := 0;
        while i < |files|
          invariant 0 <= i <= |files|
          invariant FirstStatError(files[i..]) == FirstStatError(files)
          invariant dirSize == SumSizes(files[..i]) && fileCount == i
        {
          assert files[i..][1..] == files[i + 1..];
          match files[i].stat
          case StatFailed(e) =>
            sent := sent + [Failure(e)];
            return [];
          case Stat(fileSize) =>
            assert files[..i + 1][..i] == files[..i];
            dirSize := dirSize + fileSize;
            fileCount := fileCount + 1;
          i := i + 1;
        }
        assert files[..i] == files;
        sent := sent + [Partial(Result(dirSize, fileCount))];
        return subDirs;
    }

    /** The `select` on the token channel: true when the send succeeds and the sub-directory is spawned. */
    method TrySpawn() returns (spawn: bool)
      modifies this`schedule
      ensures spawn == (old(schedule) != [] && old(schedule)[0])
      ensures schedule == if old(schedule) == [] then [] else old(schedule)[1..]
    {
      if schedule == [] {
        spawn := false;
      } else {
        spawn := schedule[0];
        schedule := schedule[1..];
      }
    }

    /**
     * `worker`: visit `dir`, then spawn or inline each sub-directory. Whatever
     * the schedule, it appends messages, visits and spawned tasks that
     * together account for exactly the inline traversal of `dir`: each
     * message and each directory of that traversal is either produced now or
     * owed by a spawned task, once.
     */
    method Worker(dir: Dir) returns (ghost sentNow: seq<Message>, ghost visitedNow: seq<Dir>, ghost spawned: seq<Dir>)
      modifies this`sent, this`visited, this`pending, this`schedule
      ensures sent == old(sent) + sentNow
      ensures visited == old(visited) + visitedNow
      ensures pending == old(pending) + spawned
      ensures Covers(sentNow, visitedNow, spawned, Trace(dir), Reach(dir))
      ensures sentNow != []
      decreases dir, 1
    {
      ghost var sent0, visited0 := sent, visited;
      var dirs := ProcessDir(dir);
      ghost var sent1, visited1, pending1 := sent, visited, pending;
      ghost var s, v, p := [], [], [];
      CoversNone(dirs);
      var i := 0;
      while i < |dirs|
        invariant 0 <= i <= |dirs|
        invariant sent == sent1 + s && visited == visited1 + v && pending == pending1 + p
        invariant Covers(s, v, p, TraceAll(dirs[..i]), ReachAll(dirs[..i]))
      {
        ExpandedSmaller(dir, i);
        ghost var s', v', p' := Dispatch(dirs[i]);
        CoversNext(s, v, p, dirs, i, s', v', p');
        AppendAssoc(sent1, s, s');
        AppendAssoc(visited1, v, v');
        AppendAssoc(pending1, p, p');
        s, v, p := s + s', v + v', p + p';
        i := i + 1;
      }
      assert dirs[..i] == dirs;
      CoversVisit(dir, s, v, p);
      AppendAssoc(sent0, [Visit(dir)], s);
      AppendAssoc(visited0, [dir], v);
      sentNow, visitedNow, spawned := [Visit(dir)] + s, [dir] + v, p;
    }

    /**
     * The `select` in `worker`'s loop for one sub-directory: when a token is
     * free the sub-directory becomes a task of its own, otherwise the worker
     * visits it inline. Either way its whole traversal is accounted for.
     */
    method Dispatch(subDir: Dir) returns (ghost sentNow: seq<Message>, ghost visitedNow: seq<Dir>, ghost spawned: seq<Dir>)
      modifies this`sent, this`visited, this`pending, this`schedule
      ensures sent == old(sent) + sentNow
      ensures visited == old(visited) + visitedNow
      ensures pending == old(pending) + spawned
      ensures Covers(sentNow, visitedNow, spawned, Trace(subDir), Reach(subDir))
      decreases subDir, 2
    {
      var spawn := TrySpawn();
      if spawn {
        pending := pending + [subDir];
        sentNow, visitedNow, spawned := [], [], [subDir];
        CoversRoot(subDir);
        AppendEmpty(sent);
        AppendEmpty(visited);
      } else {
        sentNow, visitedNow, spawned := Worker(subDir);
      }
    }

    /**
     * `Size` on a fresh sizer: run the root and every spawned task until none
     * is outstanding (the wait group), then listen. Every directory the
     * traversal reaches is visited exactly once; with no failure, the answer
     * is the size and count of all reachable files; with one, an error that
     * some visit reported, and no result.
     */
    method Size(root: Dir) returns (total: Result, err: Option<IoError>)
      requires sent == [] && visited == [] && pending == []
      modifies this`sent, this`visited, this`pending, this`schedule
      ensures multiset(visited) == multiset(Reach(root))
      ensures err.None? <==> Healthy(root)
      ensures err.None? ==> total == TreeTotal(root)
      ensures err.Some? ==> total == Zero && Failure(err.value) in Trace(root)
      ensures (total, err) == ListenAsWritten(Deliveries(sent), Zero)
    {
      RunTasks(root);
      MessagesOfDeliveries(sent);
      total, err := ListenForResults(Deliveries(sent));
      SentMeetsTree(root, sent);
      AgreesWithAsWritten(sent, total, err);
    }

    /**
     * The root task and every task it spawns, run until the wait group is
     * done: the messages sent and the directories visited are those of the
     * inline traversal, each exactly once, in some order.
     */
    method RunTasks(root: Dir)
      requires sent == [] && visited == [] && pending == []
      modifies this`sent, this`visited, this`pending, this`schedule
      ensures multiset(sent) == multiset(Trace(root))
      ensures multiset(visited) == multiset(Reach(root))
    {
      CoversRoot(root);
      pending := [root];
      while pending != []
        invariant Covers(sent, visited, pending, Trace(root), Reach(root))
        invariant |sent| <= |Trace(root)|
        decreases |Trace(root)| - |sent|
      {
        var task := pending[|pending| - 1];
        var rest := pending[..|pending| - 1];
        ghost var sent1, visited1 := sent, visited;
        SplitLast(pending);
        pending := rest;
        ghost var s, v, p := Worker(task);
        CoversPop(sent1, visited1, rest, task, s, v, p, Trace(root), Reach(root));
      }
      CoversDone(sent, visited, Trace(root), Reach(root));
    }
  }

  /** `NewSizer().Size(ctx, root)`, for one schedule of spawn decisions. */
  method SizeOf(root: Dir, schedule: seq<bool>) returns (total: Result, err: Option<IoError>)
    ensures err.None? <==> Healthy(root)
    ensures err.None? ==> total == TreeTotal(root)
    ensures err.Some? ==> total == Zero && Failure(err.value) in Trace(root)
  {
    var s := new Sizer(schedule);
    total, err := s.Size(root);
  }
}
