/** The handle a test body works on (t.go), and how `runOne` turns what body and
    cleanups did into a verdict. A body or cleanup is the list of calls it
    makes; how the goroutines interleave with the deadlines is a `Course`. */
module TestHandle {
  import opened Tests

  datatype Op =
    | Log(msg: string)
    | Error(msg: string)
    | Fatal(msg: string)
    | Skip(msg: string)
    | Panic(msg: string)
    | Register(fn: Fn)

  datatype Fn = Fn(id: nat, ops: seq<Op>)

  /** How a body or cleanup ended. */
  datatype End = Returned | FailNow | SkipNow | Panicked(msg: string)

  /** `ran` is history: the cleanups started so far, by identity. */
  datatype Handle = Handle(logs: seq<string>, failed: bool, skipped: bool, skipMsg: string,
                           cleanups: seq<Fn>, ran: seq<nat>)
  {
    function Logf(msg: string): Handle {
      this.(logs := logs + [msg])
    }

    function Errorf(msg: string): Handle {
      this.(failed := true, logs := logs + [msg])
    }

    function Skipf(msg: string): Handle {
      this.(skipped := true, skipMsg := msg)
    }

    function Cleanup(fn: Fn): Handle {
      this.(cleanups := cleanups + [fn])
    }

    function Start(fn: Fn): Handle {
      this.(ran := ran + [fn.id])
    }
  }

  const FRESH := Handle([], false, false, "", [], [])

  function Do(h: Handle, op: Op): (Handle, End) {
    match op
    case Log(msg) => (h.Logf(msg), Returned)
    case Error(msg) => (h.Errorf(msg), Returned)
    case Fatal(msg) => (h.Errorf(msg), FailNow)
    case Skip(msg) => (h.Skipf(msg), SkipNow)
    case Panic(msg) => (h, Panicked(msg))
    case Register(fn) => (h.Cleanup(fn), Returned)
  }

  /** Calls are made in order until one unwinds. */
  function Perform(h: Handle, ops: seq<Op>): (Handle, End)
    decreases |ops|
  {
    if ops == [] then (h, Returned)
    else
      var (h1, end) := Do(h, ops[0]);
      if end != Returned then (h1, end) else Perform(h1, ops[1..])
  }

  /** A cleanup that unwinds, however it does, is reported and swallowed. */
  function RunCleanup(h: Handle, fn: Fn): Handle {
    var (h1, end) := Perform(h.Start(fn), fn.ops);
    if end == Returned then h1 else h1.Errorf("cleanup panicked")
  }

  /** The first `n` cleanups of the list, last registered first. */
  function RunDown(h: Handle, fns: seq<Fn>, n: nat): Handle
    requires n <= |fns|
    decreases n
  {
    if n == 0 then h else RunDown(RunCleanup(h, fns[n - 1]), fns, n - 1)
  }

  function Settle(h: Handle, end: End): (Handle, Status) {
    match end
    case Returned => (h, if h.failed then Failed else Passed)
    case FailNow => (h, Failed)
    case SkipNow => (h, Skipped)
    case Panicked(msg) => (h.Errorf("panic: " + msg), Failed)
  }

  /** What the deadlines cut off: an abandoned body has made `calls` calls when
      the list of its cleanups is taken, and expired cleanups have `whole` behind them and
      `calls` calls of the next one. */
  datatype BodyCourse = BodyEnds | Abandoned(calls: nat)
  datatype CleanupCourse = CleanupsEnd | Expired(whole: nat, calls: nat)
  datatype Course = Course(body: BodyCourse, cleanups: CleanupCourse, contextDone: bool)

  function Cut(ops: seq<Op>, calls: nat): seq<Op> {
    if calls < |ops| then ops[..calls] else ops
  }

  // ----- What a list of calls amounts to -----

  predicate Unwinds(op: Op) {
    op.Fatal? || op.Skip? || op.Panic?
  }

  /** Some call for which `f` holds is reached. */
  predicate Reaches(ops: seq<Op>, f: Op -> bool) {
    ops != [] && (f(ops[0]) || (!Unwinds(ops[0]) && Reaches(ops[1..], f)))
  }

  predicate IsError(op: Op) { op.Error? }
  predicate IsFatal(op: Op) { op.Fatal? }
  predicate IsSkip(op: Op) { op.Skip? }
  predicate IsPanic(op: Op) { op.Panic? }

  /** `Reaches` in terms of places in the list. */
  lemma {:induction false} ReachesIff(ops: seq<Op>, f: Op -> bool)
    ensures Reaches(ops, f) <==> exists i :: 0 <= i < |ops| && f(ops[i]) && forall j :: 0 <= j < i ==> !Unwinds(ops[j])
  {
    if ops != [] {
      var rest := ops[1..];
      ReachesIff(rest, f);
      if Reaches(rest, f) && !Unwinds(ops[0]) {
        var i :| 0 <= i < |rest| && f(rest[i]) && forall j :: 0 <= j < i ==> !Unwinds(rest[j]);
        forall j | 0 <= j < i + 1 ensures !Unwinds(ops[j]) {
          if j > 0 {
            assert ops[j] == rest[j - 1];
          }
        }
        assert f(ops[i + 1]);
      }
      if i :| 0 <= i < |ops| && f(ops[i]) && forall j :: 0 <= j < i ==> !Unwinds(ops[j]) {
        if i > 0 {
          assert f(rest[i - 1]) && forall j :: 0 <= j < i - 1 ==> !Unwinds(rest[j]) by {
            forall j | 0 <= j < i - 1 ensures !Unwinds(rest[j]) {
              assert rest[j] == ops[j + 1];
            }
          }
        }
      }
    }
  }

  /** The cleanups registered before the list ends or unwinds. */
  function Registered(ops: seq<Op>): seq<Fn> {
    if ops == [] || Unwinds(ops[0]) then []
    else (if ops[0].Register? then [ops[0].fn] else []) + Registered(ops[1..])
  }

  lemma {:induction false} PerformMeans(h: Handle, ops: seq<Op>)
    ensures var (h1, end) := Perform(h, ops);
            && h1.failed == (h.failed || Reaches(ops, IsError) || Reaches(ops, IsFatal))
            && h1.cleanups == h.cleanups + Registered(ops)
            && h1.ran == h.ran
            && (end == Returned <==> !Reaches(ops, Unwinds))
            && (end == FailNow <==> Reaches(ops, IsFatal))
            && (end == SkipNow <==> Reaches(ops, IsSkip))
            && (end.Panicked? <==> Reaches(ops, IsPanic))
    decreases |ops|
  {
    if ops != [] && !Unwinds(ops[0]) {
      PerformMeans(Do(h, ops[0]).0, ops[1..]);
    }
  }

  /** Whether a cleanup marks the test failed. */
  predicate Spoils(fn: Fn) {
    Reaches(fn.ops, IsError) || Reaches(fn.ops, Unwinds)
  }

  lemma RunCleanupMeans(h: Handle, fn: Fn)
    ensures var h1 := RunCleanup(h, fn);
            && h1.ran == h.ran + [fn.id]
            && h1.failed == (h.failed || Spoils(fn))
            && h1.cleanups == h.cleanups + Registered(fn.ops)
  {
    PerformMeans(h.Start(fn), fn.ops);
    FatalUnwinds(fn.ops);
  }

  lemma {:induction false} FatalUnwinds(ops: seq<Op>)
    ensures Reaches(ops, IsFatal) ==> Reaches(ops, Unwinds)
  {
    if ops != [] {
      FatalUnwinds(ops[1..]);
    }
  }

  /** Identities in the order LIFO gives. */
  function Backwards(fns: seq<Fn>): seq<nat> {
    if fns == [] then [] else [fns[|fns| - 1].id] + Backwards(fns[..|fns| - 1])
  }

  lemma {:induction false} BackwardsAt(fns: seq<Fn>, k: nat)
    requires k < |fns|
    ensures |Backwards(fns)| == |fns| && Backwards(fns)[k] == fns[|fns| - 1 - k].id
  {
    if k > 0 {
      BackwardsAt(fns[..|fns| - 1], k - 1);
    } else if |fns| > 1 {
      BackwardsAt(fns[..|fns| - 1], 0);
    }
  }

  /** Every cleanup runs once, last registered first, whatever any of them
      does; the test is marked failed exactly if it was or one of them spoils it. */
  lemma {:induction false} RunDownMeans(h: Handle, fns: seq<Fn>, n: nat)
    requires n <= |fns|
    ensures RunDown(h, fns, n).ran == h.ran + Backwards(fns[..n])
    ensures RunDown(h, fns, n).failed == (h.failed || exists k :: 0 <= k < n && Spoils(fns[k]))
    decreases n
  {
    if n > 0 {
      var h1 := RunCleanup(h, fns[n - 1]);
      RunCleanupMeans(h, fns[n - 1]);
      RunDownMeans(h1, fns, n - 1);
      assert fns[..n][..n - 1] == fns[..n - 1];
      assert h.ran + [fns[n - 1].id] + Backwards(fns[..n - 1]) == h.ran + Backwards(fns[..n]);
    }
  }

  /** Cleanups cut off by their deadline: `whole` done, the next under way. */
  function RunPart(h: Handle, fns: seq<Fn>, n: nat, whole: nat, calls: nat): Handle
    requires n <= |fns|
    decreases n
  {
    if n == 0 then h
    else if whole == 0 then Perform(h.Start(fns[n - 1]), Cut(fns[n - 1].ops, calls)).0
    else RunPart(RunCleanup(h, fns[n - 1]), fns, n - 1, whole - 1, calls)
  }

  /** A list of calls starts no cleanup itself. */
  lemma PerformStarts(h: Handle, ops: seq<Op>)
    ensures Perform(h, ops).0.ran == h.ran
  {
    PerformMeans(h, ops);
  }

  /** What has started, last registered first, when `whole` cleanups are over. */
  function Started(fns: seq<Fn>, whole: nat): seq<nat> {
    if fns == [] then []
    else
      var n := |fns| - 1;
      [fns[n].id] + if whole == 0 then [] else Started(fns[..n], whole - 1)
  }

  /** It is a prefix of the LIFO order. */
  lemma {:induction false} StartedIs(fns: seq<Fn>, whole: nat)
    ensures var order := Backwards(fns);
            |order| == |fns| && Started(fns, whole) == if whole < |order| then order[..whole + 1] else order
  {
    if fns != [] {
      StartedIs(fns[..|fns| - 1], if whole == 0 then 0 else whole - 1);
    }
  }

  lemma {:induction false} RunPartPrefix(h: Handle, fns: seq<Fn>, n: nat, whole: nat, calls: nat)
    requires n <= |fns|
    ensures RunPart(h, fns, n, whole, calls) == RunPart(h, fns[..n], n, whole, calls)
    decreases n
  {
    if n > 0 && whole > 0 {
      assert fns[..n][..n - 1] == fns[..n - 1];
      RunPartPrefix(RunCleanup(h, fns[n - 1]), fns, n - 1, whole - 1, calls);
      RunPartPrefix(RunCleanup(h, fns[n - 1]), fns[..n], n - 1, whole - 1, calls);
    }
  }

  lemma {:induction false} RunPartMeans(h: Handle, fns: seq<Fn>, whole: nat, calls: nat)
    ensures RunPart(h, fns, |fns|, whole, calls).ran == h.ran + Started(fns, whole)
    decreases |fns|
  {
    if fns != [] {
      var n := |fns| - 1;
      var fn := fns[n];
      if whole == 0 {
        PerformStarts(h.Start(fn), Cut(fn.ops, calls));
      } else {
        var h1 := RunCleanup(h, fn);
        PerformStarts(h.Start(fn), fn.ops);
        RunPartPrefix(h1, fns, n, whole - 1, calls);
        RunPartMeans(h1, fns[..n], whole - 1, calls);
        Associate(h.ran, fn.id, Started(fns[..n], whole - 1));
      }
    }
  }

  lemma Associate(xs: seq<nat>, y: nat, zs: seq<nat>)
    ensures (xs + [y]) + zs == xs + ([y] + zs)
  {
  }

  // ----- The handle itself -----

  class T {
    const name: string
    var logs: seq<string>
    var failed: bool
    var skipped: bool
    var skipMsg: string
    var cleanups: seq<Fn>
    var ran: seq<nat>

    ghost function Value(): Handle
      reads this
    {
      Handle(logs, failed, skipped, skipMsg, cleanups, ran)
    }

    constructor (name: string)
      ensures Value() == FRESH && this.name == name
    {
      this.name := name;
      logs, failed, skipped, skipMsg, cleanups, ran := [], false, false, "", [], [];
    }

    method Logf(msg: string)
      modifies this
      ensures Value() == old(Value()).Logf(msg)
    {
      logs := logs + [msg];
    }

    method Errorf(msg: string)
      modifies this
      ensures Value() == old(Value()).Errorf(msg)
    {
      failed := true;
      logs := logs + [msg];
    }

    method Fatalf(msg: string) returns (end: End)
      modifies this
      ensures (Value(), end) == Do(old(Value()), Fatal(msg))
    {
      Errorf(msg);
      return FailNow;
    }

    method Skipf(msg: string) returns (end: End)
      modifies this
      ensures (Value(), end) == Do(old(Value()), Skip(msg))
    {
      skipped := true;
      skipMsg := msg;
      return SkipNow;
    }

    method Cleanup(fn: Fn)
      modifies this
      ensures Value() == old(Value()).Cleanup(fn)
    {
      cleanups := cleanups + [fn];
    }

    /** Makes the calls of a body or cleanup until one unwinds. */
    method Call(ops: seq<Op>) returns (end: End)
      modifies this
      ensures (Value(), end) == Perform(old(Value()), ops)
    {
      end := Returned;
      var i := 0;
      while i < |ops| && end == Returned
        invariant 0 <= i <= |ops|
        invariant end == Returned ==> Perform(Value(), ops[i..]) == Perform(old(Value()), ops)
        invariant end != Returned ==> (Value(), end) == Perform(old(Value()), ops)
      {
        assert ops[i..][0] == ops[i] && ops[i..][1..] == ops[i + 1..];
        match ops[i] {
          case Log(msg) => Logf(msg);
          case Error(msg) => Errorf(msg);
          case Fatal(msg) => end := Fatalf(msg);
          case Skip(msg) => end := Skipf(msg);
          case Panic(msg) => end := Panicked(msg);
          case Register(fn) => Cleanup(fn);
        }
        i := i + 1;
      }
    }

    /** The list is taken before the first cleanup starts, so what a cleanup
        registers stays behind. */
    method RunCleanups()
      modifies this
      ensures Value() == RunDown(old(Value()).(cleanups := []), old(cleanups), |old(cleanups)|)
    {
      var fns := cleanups;
      cleanups := [];
      var i := |fns|;
      while i > 0
        invariant 0 <= i <= |fns|
        invariant RunDown(Value(), fns, i) == RunDown(old(Value()).(cleanups := []), fns, |fns|)
      {
        i := i - 1;
        ghost var was := Value();
        ran := ran + [fns[i].id];
        var end := Call(fns[i].ops);
        if end != Returned {
          Errorf("cleanup panicked");
        }
        assert Value() == RunCleanup(was, fns[i]);
      }
    }

    /** The same loop, looked at when its deadline strikes. */
    method RunCleanupsUntil(whole: nat, calls: nat)
      modifies this
      ensures Value() == RunPart(old(Value()).(cleanups := []), old(cleanups), |old(cleanups)|, whole, calls)
    {
      var fns := cleanups;
      cleanups := [];
      var i, left := |fns|, whole;
      while i > 0 && left > 0
        invariant 0 <= i <= |fns|
        invariant RunPart(Value(), fns, i, left, calls)
               == RunPart(old(Value()).(cleanups := []), fns, |fns|, whole, calls)
      {
        i, left := i - 1, left - 1;
        ghost var was := Value();
        ran := ran + [fns[i].id];
        var end := Call(fns[i].ops);
        if end != Returned {
          Errorf("cleanup panicked");
        }
        assert Value() == RunCleanup(was, fns[i]);
      }
      if i > 0 {
        ran := ran + [fns[i - 1].id];
        var _ := Call(Cut(fns[i - 1].ops, calls));
      }
    }
  }

  // ----- One test -----

  /** Where the handle and the status stand when the worker is done with the body. */
  function AfterBody(h: Handle, body: seq<Op>, course: BodyCourse): (Handle, Status) {
    match course
    case BodyEnds => var (h1, end) := Perform(h, body); Settle(h1, end)
    case Abandoned(calls) =>
      (Perform(h, Cut(body, calls)).0.Errorf("test did not return after its deadline"), TimedOut)
  }

  function AfterCleanups(h: Handle, course: CleanupCourse): Handle {
    var h0 := h.(cleanups := []);
    match course
    case CleanupsEnd => RunDown(h0, h.cleanups, |h.cleanups|)
    case Expired(whole, calls) =>
      RunPart(h0, h.cleanups, |h.cleanups|, whole, calls).Errorf("cleanups did not finish")
  }

  /** `runOne`: the handle it leaves and the status it reports. */
  function RunOne(body: seq<Op>, course: Course): (Handle, Status) {
    var (h, status) := AfterBody(FRESH, body, course.body);
    var h1 := AfterCleanups(h, course.cleanups);
    (h1, Verdict(course.body.Abandoned?, status, course.contextDone, h1.failed))
  }

  /** Whether a body that was waited for counts as failed. */
  predicate BodyFails(body: seq<Op>) {
    || Reaches(body, IsFatal)
    || Reaches(body, IsPanic)
    || (!Reaches(body, Unwinds) && Reaches(body, IsError))
  }

  /** The status of every test, read off what its body and cleanups call and
      which deadlines struck. */
  lemma VerdictMeans(body: seq<Op>, course: Course)
    ensures var status := RunOne(body, course).1;
            && (status == TimedOut <==> course.body.Abandoned? || (course.contextDone && BodyFails(body)))
            && (status == Skipped <==> !course.body.Abandoned? && Reaches(body, IsSkip))
            && (status == Passed <==>
                  && !course.body.Abandoned? && course.cleanups == CleanupsEnd
                  && !Reaches(body, Unwinds) && !Reaches(body, IsError)
                  && forall k :: 0 <= k < |Registered(body)| ==> !Spoils(Registered(body)[k]))
            && (status == TimedOut || status == Skipped || status == Passed || status == Failed)
  {
    var (h, status) := AfterBody(FRESH, body, course.body);
    if course.body.BodyEnds? {
      PerformMeans(FRESH, body);
      OneUnwinding(body);
      if course.cleanups.CleanupsEnd? {
        RunDownMeans(h.(cleanups := []), h.cleanups, |h.cleanups|);
        assert h.cleanups == Registered(body);
      }
    }
  }

  /** A list unwinds in one way only. */
  lemma {:induction false} OneUnwinding(ops: seq<Op>)
    ensures Reaches(ops, Unwinds) <==> Reaches(ops, IsFatal) || Reaches(ops, IsSkip) || Reaches(ops, IsPanic)
    ensures !(Reaches(ops, IsFatal) && Reaches(ops, IsSkip))
    ensures !(Reaches(ops, IsPanic) && Reaches(ops, IsSkip))
  {
    if ops != [] {
      OneUnwinding(ops[1..]);
    }
  }

  lemma BodyRegisters(body: seq<Op>, course: BodyCourse)
    ensures var h := AfterBody(FRESH, body, course).0;
            && h.ran == []
            && h.cleanups == Registered(if course.Abandoned? then Cut(body, course.calls) else body)
  {
    PerformMeans(FRESH, body);
    if course.Abandoned? {
      PerformMeans(FRESH, Cut(body, course.calls));
    }
  }

  lemma CleanupsRun(h: Handle, course: CleanupCourse)
    requires h.ran == []
    ensures var ran, order := AfterCleanups(h, course).ran, Backwards(h.cleanups);
            && |order| == |h.cleanups|
            && (course == CleanupsEnd ==> ran == order)
            && (course.Expired? ==> ran == Started(h.cleanups, course.whole))
  {
    var n := |h.cleanups|;
    assert h.cleanups[..n] == h.cleanups;
    if n > 0 {
      BackwardsAt(h.cleanups, 0);
    }
    match course
    case CleanupsEnd => RunDownMeans(h.(cleanups := []), h.cleanups, n);
    case Expired(whole, calls) => RunPartMeans(h.(cleanups := []), h.cleanups, whole, calls);
  }

  /** Every cleanup registered before the snapshot starts once, in LIFO order:
      all of them if they are waited for, a prefix if their deadline strikes. */
  lemma CleanupOrder(body: seq<Op>, course: Course)
    ensures var seen := if course.body.Abandoned? then Cut(body, course.body.calls) else body;
            var order, ran := Backwards(Registered(seen)), RunOne(body, course).0.ran;
            && |order| == |Registered(seen)| && ran <= order
            && (course.cleanups == CleanupsEnd ==> ran == order)
            && (course.cleanups.Expired? ==>
                  |ran| == if course.cleanups.whole < |order| then course.cleanups.whole + 1 else |order|)
  {
    BodyRegisters(body, course.body);
    var h := AfterBody(FRESH, body, course.body).0;
    CleanupsRun(h, course.cleanups);
    if course.cleanups.Expired? {
      StartedIs(h.cleanups, course.cleanups.whole);
    }
  }

  // ----- What a cleanup registers -----

  /** The calls the k-th registered cleanup gets to make: all of them, or, under
      a deadline, only those before it strikes. */
  function Made(fns: seq<Fn>, course: CleanupCourse, k: nat): seq<Op>
    requires k < |fns|
  {
    var place := |fns| - 1 - k;
    if course.CleanupsEnd? || place < course.whole then fns[k].ops
    else if place == course.whole then Cut(fns[k].ops, course.calls)
    else []
  }

  /** The k-th registered cleanup registers nothing in the calls it gets to make. */
  predicate Modest(fns: seq<Fn>, course: CleanupCourse, k: nat)
    requires k < |fns|
  {
    Registered(Made(fns, course, k)) == []
  }

  ghost predicate AllModest(fns: seq<Fn>, course: CleanupCourse) {
    forall k :: 0 <= k < |fns| ==> Modest(fns, course, k)
  }

  /** The last one runs first, and the others as if it had not been there. */
  lemma ModestLast(fns: seq<Fn>, course: CleanupCourse, rest: CleanupCourse)
    requires fns != []
    requires rest == if course.Expired? && course.whole > 0 then Expired(course.whole - 1, course.calls) else course
    requires course.Expired? ==> course.whole > 0
    ensures AllModest(fns, course)
            <==> Registered(fns[|fns| - 1].ops) == [] && AllModest(fns[..|fns| - 1], rest)
  {
    var n := |fns| - 1;
    forall k | 0 <= k < n ensures Modest(fns, course, k) == Modest(fns[..n], rest, k) {
    }
    assert Modest(fns, course, n) == (Registered(fns[n].ops) == []);
  }

  lemma {:induction false} RunDownRegisters(h: Handle, fns: seq<Fn>)
    ensures h.cleanups <= RunDown(h, fns, |fns|).cleanups
    ensures RunDown(h, fns, |fns|).cleanups == h.cleanups <==> AllModest(fns, CleanupsEnd)
    decreases |fns|
  {
    if fns != [] {
      var n := |fns| - 1;
      var h1 := RunCleanup(h, fns[n]);
      RunCleanupMeans(h, fns[n]);
      RunDownRegisters(h1, fns[..n]);
      RunDownPrefix(h1, fns, n);
      NothingRegistered(h.cleanups, Registered(fns[n].ops));
      ModestLast(fns, CleanupsEnd, CleanupsEnd);
    }
  }

  lemma {:induction false} RunDownPrefix(h: Handle, fns: seq<Fn>, n: nat)
    requires n <= |fns|
    ensures RunDown(h, fns, n) == RunDown(h, fns[..n], n)
    decreases n
  {
    if n > 0 {
      assert fns[..n][..n - 1] == fns[..n - 1];
      RunDownPrefix(RunCleanup(h, fns[n - 1]), fns, n - 1);
      RunDownPrefix(RunCleanup(h, fns[n - 1]), fns[..n], n - 1);
    }
  }

  lemma {:induction false} RunPartRegisters(h: Handle, fns: seq<Fn>, whole: nat, calls: nat)
    ensures h.cleanups <= RunPart(h, fns, |fns|, whole, calls).cleanups
    ensures RunPart(h, fns, |fns|, whole, calls).cleanups == h.cleanups <==> AllModest(fns, Expired(whole, calls))
    decreases |fns|
  {
    if fns != [] {
      var n := |fns| - 1;
      if whole == 0 {
        CutOnly(h, fns, calls);
      } else {
        var h1 := RunCleanup(h, fns[n]);
        RunCleanupMeans(h, fns[n]);
        RunPartRegisters(h1, fns[..n], whole - 1, calls);
        RunPartPrefix(h1, fns, n, whole - 1, calls);
        NothingRegistered(h.cleanups, Registered(fns[n].ops));
        ModestLast(fns, Expired(whole, calls), Expired(whole - 1, calls));
      }
    }
  }

  lemma CutOnly(h: Handle, fns: seq<Fn>, calls: nat)
    requires fns != []
    ensures var left := RunPart(h, fns, |fns|, 0, calls).cleanups;
            h.cleanups <= left && (left == h.cleanups <==> AllModest(fns, Expired(0, calls)))
  {
    var n := |fns| - 1;
    var cut := Cut(fns[n].ops, calls);
    PerformMeans(h.Start(fns[n]), cut);
    NothingRegistered(h.cleanups, Registered(cut));
    assert Modest(fns, Expired(0, calls), n) == (Registered(cut) == []);
    forall k | 0 <= k < n ensures Modest(fns, Expired(0, calls), k) {
    }
  }

  lemma NothingRegistered(before: seq<Fn>, more: seq<Fn>)
    ensures before + more == before <==> more == []
  {
    if more != [] {
      assert |before + more| > |before|;
    }
  }

  /** The cleanups registered before the snapshot of a test. */
  function Snapshot(body: seq<Op>, course: BodyCourse): seq<Fn> {
    Registered(if course.Abandoned? then Cut(body, course.calls) else body)
  }

  /** When `runOne` returns, nothing has been left behind exactly when no cleanup,
      in the calls it has made by then, registered another one. */
  lemma LeftBehind(body: seq<Op>, course: Course)
    ensures var fns := Snapshot(body, course.body);
            RunOne(body, course).0.cleanups == []
            <==> AllModest(fns, course.cleanups)
  {
    BodyRegisters(body, course.body);
    var h := AfterBody(FRESH, body, course.body).0;
    match course.cleanups
    case CleanupsEnd => RunDownRegisters(h.(cleanups := []), h.cleanups);
    case Expired(whole, calls) =>
      RunPartRegisters(h.(cleanups := []), h.cleanups, whole, calls);
      assert AfterCleanups(h, course.cleanups).cleanups
          == RunPart(h.(cleanups := []), h.cleanups, |h.cleanups|, whole, calls).cleanups;
  }

  /** No cleanup registers another one. */
  ghost predicate NoneNested(fns: seq<Fn>) {
    forall k :: 0 <= k < |fns| ==> Registered(fns[k].ops) == []
  }

  lemma ModestWaited(fns: seq<Fn>)
    ensures AllModest(fns, CleanupsEnd) <==> NoneNested(fns)
  {
    forall k | 0 <= k < |fns| ensures Modest(fns, CleanupsEnd, k) == (Registered(fns[k].ops) == []) {
    }
    if AllModest(fns, CleanupsEnd) {
      forall k | 0 <= k < |fns| ensures Registered(fns[k].ops) == [] {
        assert Modest(fns, CleanupsEnd, k);
      }
    }
  }

  /** For a test that is waited for throughout: nothing is left behind exactly
      when no cleanup of its body registers another. */
  lemma WaitedForAll(body: seq<Op>, contextDone: bool)
    ensures RunOne(body, Course(BodyEnds, CleanupsEnd, contextDone)).0.cleanups == [] <==> NoneNested(Registered(body))
  {
    LeftBehind(body, Course(BodyEnds, CleanupsEnd, contextDone));
    assert Snapshot(body, BodyEnds) == Registered(body);
    ModestWaited(Registered(body));
  }

  /** One call at the head of a list. */
  lemma HeadRegisters(op: Op, rest: seq<Op>)
    ensures Registered([op] + rest)
            == if Unwinds(op) then [] else (if op.Register? then [op.fn] else []) + Registered(rest)
    ensures Reaches([op] + rest, Unwinds) == (Unwinds(op) || Reaches(rest, Unwinds))
  {
    assert ([op] + rest)[1..] == rest;
  }

  /** What the calls after `before` register: nothing if it unwinds. */
  function RegisteredAfter(before: seq<Op>, after: seq<Op>): seq<Fn> {
    if Reaches(before, Unwinds) then [] else Registered(after)
  }

  lemma {:induction false} RegisteredRest(before: seq<Op>, after: seq<Op>)
    ensures Registered(before + after) == Registered(before) + RegisteredAfter(before, after)
    decreases |before|
  {
    if before == [] {
      assert before + after == after;
    } else {
      var op, rest := before[0], before[1..];
      assert before == [op] + rest && before + after == [op] + (rest + after);
      RegisteredRest(rest, after);
      HeadFirst(op, rest, rest + after, RegisteredAfter(rest, after));
    }
  }

  lemma HeadFirst(op: Op, rest: seq<Op>, all: seq<Op>, more: seq<Fn>)
    requires Registered(all) == Registered(rest) + more
    ensures Registered([op] + all) == Registered([op] + rest) + if Unwinds(op) then [] else more
    ensures Reaches([op] + rest, Unwinds) == (Unwinds(op) || Reaches(rest, Unwinds))
  {
    HeadRegisters(op, rest);
    HeadRegisters(op, all);
    Grouped(if op.Register? then [op.fn] else [], Registered(rest), more);
  }

  lemma Grouped(xs: seq<Fn>, ys: seq<Fn>, zs: seq<Fn>)
    ensures xs + (ys + zs) == (xs + ys) + zs
  {
  }

  /** What was registered before the snapshot came first. */
  lemma SnapshotFirst(body: seq<Op>, course: BodyCourse)
    ensures Snapshot(body, course) <= Registered(body)
    ensures Registered(body) == Snapshot(body, course) + Registered(Later(body, course))
  {
    if course.Abandoned? && course.calls < |body| {
      assert body == body[..course.calls] + body[course.calls..];
      RegisteredRest(body[..course.calls], body[course.calls..]);
    }
  }

  /** When `runOne` returns, every cleanup its body registers or ever will has
      been started, last registered first, and nothing else is waiting, exactly
      when the cleanup deadline left none unstarted, none of those that ran
      registered another in the calls it made, and the body had no registration
      still to make. */
  lemma EveryCleanupRuns(body: seq<Op>, course: Course)
    ensures var (h, fns) := (RunOne(body, course).0, Snapshot(body, course.body));
            h.cleanups == [] && h.ran == Backwards(Registered(body))
            <==> && (course.cleanups.Expired? ==> |fns| <= course.cleanups.whole + 1)
                 && AllModest(fns, course.cleanups)
                 && (course.body.Abandoned? ==> Registered(Cut(body, course.body.calls)) == Registered(body))
  {
    var fns := Snapshot(body, course.body);
    LeftBehind(body, course);
    CleanupOrder(body, course);
    SnapshotFirst(body, course.body);
    BackwardsLength(Registered(body));
    BackwardsLength(fns);
    assert |fns| == |Registered(body)| ==> fns == Registered(body);
  }

  lemma BackwardsLength(fns: seq<Fn>)
    ensures |Backwards(fns)| == |fns|
  {
    if fns != [] {
      BackwardsAt(fns, 0);
    }
  }

  /** The calls an abandoned body makes after its worker has moved on. */
  function Later(body: seq<Op>, course: BodyCourse): seq<Op> {
    if course.Abandoned? && course.calls < |body| && !Reaches(body[..course.calls], Unwinds) then body[course.calls..]
    else []
  }

  /** The handle once everything left running has ended: no deadline stops the
      cleanups then, and an abandoned body makes the rest of its calls. Both only
      add to the list, so their order does not matter to whether it is empty. */
  function InTheEnd(body: seq<Op>, course: BodyCourse): Handle {
    var h := AfterBody(FRESH, body, course).0;
    Perform(RunDown(h.(cleanups := []), h.cleanups, |h.cleanups|), Later(body, course)).0
  }

  /** In the end the cleanup deadline makes no difference: all that was registered
      before the snapshot has run, and every cleanup has exactly when none of
      those registers another and an abandoned body registers none after it. */
  lemma AllRunInTheEnd(body: seq<Op>, course: BodyCourse)
    ensures var (h, fns) := (InTheEnd(body, course), Snapshot(body, course));
            && h.ran == Backwards(fns)
            && (h.cleanups == [] <==> NoneNested(fns) && Registered(Later(body, course)) == [])
            && (h.cleanups == [] && h.ran == Backwards(Registered(body))
                <==> NoneNested(fns) && fns == Registered(body))
  {
    BodyRegisters(body, course);
    var h, fns := AfterBody(FRESH, body, course).0, Snapshot(body, course);
    assert h.cleanups == fns && fns[..|fns|] == fns;
    RunDownMeans(h.(cleanups := []), fns, |fns|);
    RunDownRegisters(h.(cleanups := []), fns);
    ModestWaited(fns);
    PerformMeans(RunDown(h.(cleanups := []), fns, |fns|), Later(body, course));
    SnapshotFirst(body, course);
    BackwardsLength(Registered(body));
    BackwardsLength(fns);
    NothingRegistered(fns, Registered(Later(body, course)));
  }

  /** An abandoned body that registers a cleanup afterwards: it does not run,
      neither by the time `runOne` returns nor in the end. */
  lemma LateBody(contextDone: bool)
    ensures var fn := Fn(7, []);
            var body, cut := [Log("stuck"), Register(fn)], Abandoned(1);
            && Registered(body) == [fn]
            && RunOne(body, Course(cut, CleanupsEnd, contextDone)).0.ran == []
            && InTheEnd(body, cut).ran == [] && InTheEnd(body, cut).cleanups == [fn]
  {
    var fn := Fn(7, []);
    var body, cut := [Log("stuck"), Register(fn)], Abandoned(1);
    assert body[..1] == [Log("stuck")] && body[1..] == [Register(fn)];
    assert body[..1][1..] == [] && body[1..][1..] == [];
    assert Registered(body[..1]) == [] && Registered(body[1..]) == [fn] && Registered(body) == [fn];
    assert !Reaches(body[..1][1..], Unwinds);
    assert Later(body, cut) == body[1..];
    CleanupOrder(body, Course(cut, CleanupsEnd, contextDone));
    AllRunInTheEnd(body, cut);
    EndsWith(body, cut);
  }

  lemma EndsWith(body: seq<Op>, course: BodyCourse)
    requires Snapshot(body, course) == []
    ensures InTheEnd(body, course).cleanups == Registered(Later(body, course))
  {
    BodyRegisters(body, course);
    var h := AfterBody(FRESH, body, course).0;
    PerformMeans(h.(cleanups := []), Later(body, course));
  }

  /** A cleanup that registers another one, which does not run. */
  lemma LateRegistration(contextDone: bool)
    ensures var inner, outer := Fn(1, []), Fn(0, [Register(Fn(1, []))]);
            var h := RunOne([Register(outer)], Course(BodyEnds, CleanupsEnd, contextDone)).0;
            h.cleanups == [inner] && h.ran == [outer.id]
  {
    var inner := Fn(1, []);
    var outer := Fn(0, [Register(inner)]);
    var body := [Register(outer)];
    assert body[1..] == [] && outer.ops[1..] == [];
    var h := Perform(FRESH, body).0;
    assert Perform(FRESH.Cleanup(outer), body[1..]) == (FRESH.Cleanup(outer), Returned);
    assert h == FRESH.Cleanup(outer);
    var h0 := h.(cleanups := []);
    var h1 := RunCleanup(h0, outer);
    assert Perform(h0.Start(outer), outer.ops) == (h0.Start(outer).Cleanup(inner), Returned);
    assert RunDown(h0, [outer], 1) == RunDown(h1, [outer], 0) == h1;
  }

  /** A timed-out test need not have been abandoned: this one kept its deadline. */
  lemma TimedOutInTime()
    ensures RunOne([Fatal("late")], Course(BodyEnds, CleanupsEnd, true)).1 == TimedOut
  {
    VerdictMeans([Fatal("late")], Course(BodyEnds, CleanupsEnd, true));
  }

  // ----- What a test reports -----

  /** What one call logs. */
  function Said(op: Op): seq<string> {
    if op.Log? || op.Error? || op.Fatal? then [op.msg] else []
  }

  /** What the calls log, up to the one that unwinds. */
  function Messages(ops: seq<Op>): seq<string> {
    if ops == [] then [] else Said(ops[0]) + if Unwinds(ops[0]) then [] else Messages(ops[1..])
  }

  /** The message of the call that unwinds. */
  function Parting(ops: seq<Op>): string {
    if ops == [] then ""
    else if Unwinds(ops[0]) then ops[0].msg
    else Parting(ops[1..])
  }

  lemma {:induction false} PerformSays(h: Handle, ops: seq<Op>)
    ensures var (h1, end) := Perform(h, ops);
            && h1.logs == h.logs + Messages(ops)
            && h1.skipped == (h.skipped || Reaches(ops, IsSkip))
            && h1.skipMsg == (if Reaches(ops, IsSkip) then Parting(ops) else h.skipMsg)
            && (end.Panicked? ==> end.msg == Parting(ops))
    decreases |ops|
  {
    if ops != [] {
      DoSays(h, ops[0]);
      if !Unwinds(ops[0]) {
        hide Do;
        PerformSays(Do(h, ops[0]).0, ops[1..]);
        Follows(h.logs, Said(ops[0]), Messages(ops[1..]));
      }
    }
  }

  lemma DoSays(h: Handle, op: Op)
    ensures var (h1, end) := Do(h, op);
            && h1.logs == h.logs + Said(op) && (end == Returned <==> !Unwinds(op))
            && h1.skipped == (h.skipped || op.Skip?) && h1.skipMsg == (if op.Skip? then op.msg else h.skipMsg)
            && (end.Panicked? ==> end.msg == op.msg)
  {
  }

  /** What one whole cleanup logs. */
  function CleanupSays(fn: Fn): seq<string> {
    Messages(fn.ops) + if Reaches(fn.ops, Unwinds) then ["cleanup panicked"] else []
  }

  lemma RunCleanupSays(h: Handle, fn: Fn)
    ensures RunCleanup(h, fn).logs == h.logs + CleanupSays(fn)
    ensures !Reaches(fn.ops, IsSkip) ==>
              RunCleanup(h, fn).skipped == h.skipped && RunCleanup(h, fn).skipMsg == h.skipMsg
  {
    PerformSays(h.Start(fn), fn.ops);
    PerformMeans(h.Start(fn), fn.ops);
  }

  /** What the first `n` cleanups log, last registered first. */
  function CleanupsSay(fns: seq<Fn>, course: CleanupCourse, n: nat): seq<string>
    requires n <= |fns|
    decreases n
  {
    if n == 0 then []
    else
      match course
      case CleanupsEnd => CleanupSays(fns[n - 1]) + CleanupsSay(fns, course, n - 1)
      case Expired(whole, calls) =>
        if whole == 0 then Messages(Cut(fns[n - 1].ops, calls))
        else CleanupSays(fns[n - 1]) + CleanupsSay(fns, Expired(whole - 1, calls), n - 1)
  }

  predicate NoneSkips(fns: seq<Fn>) {
    forall k :: 0 <= k < |fns| ==> !Reaches(fns[k].ops, IsSkip)
  }

  lemma {:induction false} RunDownSays(h: Handle, fns: seq<Fn>, n: nat)
    requires n <= |fns|
    ensures RunDown(h, fns, n).logs == h.logs + CleanupsSay(fns, CleanupsEnd, n)
    ensures NoneSkips(fns) ==> RunDown(h, fns, n).skipped == h.skipped && RunDown(h, fns, n).skipMsg == h.skipMsg
    decreases n
  {
    if n > 0 {
      RunCleanupSays(h, fns[n - 1]);
      RunDownSays(RunCleanup(h, fns[n - 1]), fns, n - 1);
      Follows(h.logs, CleanupSays(fns[n - 1]), CleanupsSay(fns, CleanupsEnd, n - 1));
    }
  }

  lemma Follows(a: seq<string>, b: seq<string>, c: seq<string>)
    ensures (a + b) + c == a + (b + c)
  {
  }

  lemma {:induction false} RunPartSays(h: Handle, fns: seq<Fn>, n: nat, whole: nat, calls: nat)
    requires n <= |fns|
    ensures RunPart(h, fns, n, whole, calls).logs == h.logs + CleanupsSay(fns, Expired(whole, calls), n)
    ensures NoneSkips(fns) ==> var h1 := RunPart(h, fns, n, whole, calls);
                               h1.skipped == h.skipped && h1.skipMsg == h.skipMsg
    decreases n
  {
    if n > 0 {
      var fn := fns[n - 1];
      if whole == 0 {
        PerformSays(h.Start(fn), Cut(fn.ops, calls));
        CutSkips(fn.ops, calls);
      } else {
        RunCleanupSays(h, fn);
        RunPartSays(RunCleanup(h, fn), fns, n - 1, whole - 1, calls);
        Follows(h.logs, CleanupSays(fn), CleanupsSay(fns, Expired(whole - 1, calls), n - 1));
      }
    }
  }

  lemma {:induction false} CutSkips(ops: seq<Op>, calls: nat)
    ensures Reaches(Cut(ops, calls), IsSkip) ==> Reaches(ops, IsSkip)
  {
    if ops != [] && 0 < calls < |ops| && !Unwinds(ops[0]) {
      assert ops[..calls][1..] == ops[1..][..calls - 1];
      CutSkips(ops[1..], calls - 1);
    }
  }

  /** What the body and the end the worker makes of it log. */
  function BodySays(body: seq<Op>, course: BodyCourse): seq<string> {
    match course
    case BodyEnds =>
      Messages(body) + if Reaches(body, IsPanic) then ["panic: " + Parting(body)] else []
    case Abandoned(calls) => Messages(Cut(body, calls)) + ["test did not return after its deadline"]
  }

  lemma AfterBodySays(body: seq<Op>, course: BodyCourse)
    ensures var h := AfterBody(FRESH, body, course).0;
            var seen := if course.Abandoned? then Cut(body, course.calls) else body;
            && h.logs == BodySays(body, course)
            && h.skipped == Reaches(seen, IsSkip)
            && h.skipMsg == if Reaches(seen, IsSkip) then Parting(seen) else ""
  {
    var seen := if course.Abandoned? then Cut(body, course.calls) else body;
    PerformSays(FRESH, seen);
    PerformMeans(FRESH, seen);
  }

  /** The report of a test, under every course: everything body and cleanups logged
      in the calls they got to make, in order, with a line for each thing that went
      wrong around them; and the reason of the body's skip, if no cleanup skips. */
  lemma OutputMeans(body: seq<Op>, course: Course)
    ensures var (h, fns) := (RunOne(body, course).0, Snapshot(body, course.body));
            var seen := if course.body.Abandoned? then Cut(body, course.body.calls) else body;
            && h.logs == BodySays(body, course.body) + CleanupsSay(fns, course.cleanups, |fns|)
                         + (if course.cleanups.Expired? then ["cleanups did not finish"] else [])
            && (NoneSkips(fns) ==>
                  && h.skipped == Reaches(seen, IsSkip)
                  && h.skipMsg == if Reaches(seen, IsSkip) then Parting(seen) else "")
  {
    var h := AfterBody(FRESH, body, course.body).0;
    AfterBodySays(body, course.body);
    BodyRegisters(body, course.body);
    match course.cleanups
    case CleanupsEnd => RunDownSays(h.(cleanups := []), h.cleanups, |h.cleanups|);
    case Expired(whole, calls) => RunPartSays(h.(cleanups := []), h.cleanups, |h.cleanups|, whole, calls);
  }

  /** `runOne` under a given course of events. */
  method RunOneTest(name: string, body: seq<Op>, course: Course) returns (t: T, status: Status)
    ensures fresh(t) && (t.Value(), status) == RunOne(body, course)
  {
    t := new T(name);
    match course.body {
      case BodyEnds =>
        var end := t.Call(body);
        match end {
          case Returned => status := if t.failed then Failed else Passed;
          case FailNow => status := Failed;
          case SkipNow => status := Skipped;
          case Panicked(msg) =>
            t.Errorf("panic: " + msg);
            status := Failed;
        }
      case Abandoned(calls) =>
        var _ := t.Call(Cut(body, calls));
        t.Errorf("test did not return after its deadline");
        status := TimedOut;
    }
    match course.cleanups {
      case CleanupsEnd => t.RunCleanups();
      case Expired(whole, calls) =>
        t.RunCleanupsUntil(whole, calls);
        t.Errorf("cleanups did not finish");
    }
    if course.body.Abandoned? {
      status := TimedOut;
    } else if status == Failed && course.contextDone {
      status := TimedOut;
    } else if status == Passed && t.failed {
      status := Failed;
    }
  }
}
