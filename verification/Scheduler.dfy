/** The scheduler's shared record (`scheduler` in run.go) and the loops that
    work on it sequentially. The protocol around it is in `Protocol`. */
module Scheduler {
  import opened Tests

  datatype Runner = Runner(parallel: int, timeout: int, cleanupTimeout: int,
                           stallTimeout: int, maxLeaked: int, watchdogGrace: int)

  datatype Breakdown = TooManyLeaked(count: nat) | Stalled

  /** What the shared record holds, as a value. */
  datatype Board = Board(results: seq<Result>, done: seq<bool>,
                         progress: nat, leaked: nat, err: Option<Breakdown>) {
    function Fail(e: Breakdown): Board {
      if err.Some? then this else this.(err := Some(e))
    }

    function Stamp(now: nat): Board {
      this.(progress := now)
    }

    function Bump(): Board {
      this.(leaked := leaked + 1)
    }

    /** What a worker that was given the count `n` concludes from it. */
    function Judge(maxLeaked: int, n: nat): Board {
      if maxLeaked > 0 && n >= maxLeaked then Fail(TooManyLeaked(n)) else this
    }

    /** Counting and judging with nothing in between. */
    function CountLeak(maxLeaked: int, status: Status): Board {
      if status != TimedOut then this else Bump().Judge(maxLeaked, leaked + 1)
    }

    function Write(i: nat, r: Result): Board
      requires i < |results|
    {
      this.(results := results[i := r])
    }

    function Mark(i: nat): Board
      requires i < |done|
    {
      this.(done := done[i := true])
    }
  }

  function NewBoard(n: nat, now: nat): Board {
    Board(seq(n, _ => BLANK), seq(n, _ => false), now, 0, None)
  }

  /** The indexes of one phase, in input order. */
  function Queue(tests: seq<Test>, pool: bool): (q: seq<nat>)
    ensures forall j :: 0 <= j < |q| ==> q[j] < |tests|
    ensures |q| <= |tests|
  {
    if tests == [] then []
    else
      var n := |tests| - 1;
      var q := Queue(tests[..n], pool);
      if IsSerial(tests[n]) != pool then q + [n] else q
  }

  /** A phase queue lists exactly the indexes of its kind, each once, ascending. */
  lemma {:induction false} QueueFacts(tests: seq<Test>, pool: bool)
    ensures var q := Queue(tests, pool);
            && (forall j, k :: 0 <= j < k < |q| ==> q[j] < q[k])
            && (forall j :: 0 <= j < |q| ==> IsSerial(tests[q[j]]) != pool)
            && (forall i :: 0 <= i < |tests| && IsSerial(tests[i]) != pool ==> i in q)
  {
    if tests == [] {
    } else {
      var n := |tests| - 1;
      QueueFacts(tests[..n], pool);
      var r := Queue(tests[..n], pool);
      var q := Queue(tests, pool);
      forall j | 0 <= j < |q| ensures IsSerial(tests[q[j]]) != pool && (j < |r| ==> q[j] == r[j]) {
        if j < |r| {
          assert tests[..n][r[j]] == tests[r[j]];
        }
      }
      forall i | 0 <= i < |tests| && IsSerial(tests[i]) != pool
        ensures i in q
      {
        if i < n {
          assert tests[..n][i] == tests[i];
          assert i in r;
        } else {
          assert q[|q| - 1] == n;
        }
      }
    }
  }

  /** The two phases together hold every index exactly once. */
  lemma {:induction false} QueuesCover(tests: seq<Test>)
    ensures |Queue(tests, false)| + |Queue(tests, true)| == |tests|
  {
    if tests != [] {
      QueuesCover(tests[..|tests| - 1]);
    }
  }

  method Partition(tests: seq<Test>) returns (serial: seq<nat>, parallel: seq<nat>)
    ensures serial == Queue(tests, false) && parallel == Queue(tests, true)
  {
    serial, parallel := [], [];
    for i := 0 to |tests|
      invariant serial == Queue(tests[..i], false) && parallel == Queue(tests[..i], true)
    {
      assert tests[..i + 1][..i] == tests[..i];
      if HasMarker(tests[i], MARKER_SERIAL) {
        serial := serial + [i];
      } else {
        parallel := parallel + [i];
      }
    }
    assert tests[..|tests|] == tests;
  }

  /** The results marked done among the first `n`, in input order. */
  function Collected(b: Board, n: nat): seq<Result>
    requires n <= |b.done| == |b.results|
  {
    if n == 0 then []
    else if b.done[n - 1] then Collected(b, n - 1) + [b.results[n - 1]]
    else Collected(b, n - 1)
  }

  /** `Collected` is the whole record when everything is done. */
  lemma {:induction false} CollectedAll(b: Board, n: nat)
    requires n <= |b.done| == |b.results|
    requires forall i :: 0 <= i < n ==> b.done[i]
    ensures Collected(b, n) == b.results[..n]
  {
    if n > 0 {
      CollectedAll(b, n - 1);
      assert b.results[..n] == b.results[..n - 1] + [b.results[n - 1]];
    }
  }

  /** `picks` names, in ascending order, the places `out` was taken from. */
  ghost predicate IsSelection(out: seq<Result>, from: seq<Result>, picks: seq<nat>) {
    && |picks| == |out|
    && (forall k :: 0 <= k < |picks| ==> picks[k] < |from| && out[k] == from[picks[k]])
    && (forall j, k :: 0 <= j < k < |picks| ==> picks[j] < picks[k])
  }

  /** `Collected` is an order-preserving subsequence: exactly the done places, ascending. */
  lemma {:induction false} CollectedSelects(b: Board, n: nat) returns (picks: seq<nat>)
    requires n <= |b.done| == |b.results|
    ensures IsSelection(Collected(b, n), b.results, picks)
    ensures forall i :: i in picks <==> 0 <= i < n && b.done[i]
  {
    if n == 0 {
      picks := [];
    } else {
      picks := CollectedSelects(b, n - 1);
      if b.done[n - 1] {
        forall k | 0 <= k < |picks|
          ensures picks[k] < n - 1
        {
          assert picks[k] in picks;
        }
        picks := picks + [n - 1];
      }
    }
  }

  class Record {
    const runner: Runner
    var results: seq<Result>
    var done: seq<bool>
    var progress: nat
    var leaked: nat
    var err: Option<Breakdown>
    /** What `Observe` has been called with. */
    var observed: seq<(nat, Result)>
    var locked: bool

    ghost function Contents(): Board
      reads this
    {
      Board(results, done, progress, leaked, err)
    }

    ghost predicate Valid()
      reads this
    {
      |results| == |done| && !locked
    }

    constructor (r: Runner, n: nat, now: nat)
      ensures Valid() && runner == r && Contents() == NewBoard(n, now) && observed == []
    {
      runner := r;
      results := seq(n, _ => BLANK);
      done := seq(n, _ => false);
      progress, leaked, err, observed, locked := now, 0, None, [], false;
    }

    /** Only the first breakdown is kept. */
    method Fail(e: Breakdown)
      modifies this`err
      ensures Contents() == old(Contents()).Fail(e)
    {
      if err.None? {
        err := Some(e);
      }
    }

    method CheckLeaked()
      modifies this`leaked, this`err
      ensures Contents() == old(Contents()).CountLeak(runner.maxLeaked, TimedOut)
    {
      leaked := leaked + 1;
      if runner.maxLeaked > 0 && leaked >= runner.maxLeaked {
        Fail(TooManyLeaked(leaked));
      }
    }

    /** What a worker does when no other worker interleaves: the composition of
        the protocol's seven steps, the mutex free again at the end. */
    method Finish(i: nat, res: Result, now: nat)
      requires Valid() && i < |results|
      modifies this
      ensures Valid()
      ensures Contents() ==
              old(Contents()).Stamp(now).CountLeak(runner.maxLeaked, res.status).Write(i, res).Mark(i)
      ensures observed == old(observed) + [(i, res)]
    {
      progress := now;
      if res.status == TimedOut {
        CheckLeaked();
      }
      locked := true;
      results := results[i := res];
      done := done[i := true];
      observed := observed + [(i, res)];
      locked := false;
    }

    method Collect() returns (out: seq<Result>)
      requires Valid()
      ensures out == Collected(Contents(), |results|)
    {
      out := [];
      for i := 0 to |results|
        invariant out == Collected(Contents(), i)
      {
        if done[i] {
          out := out + [results[i]];
        }
      }
    }
  }
}
