/** Building runs step by step: tests held as long as their own deadlines allow,
    with the watchdog looking when it is due. */
module ProtocolAlarm {
  import opened Tests
  import opened Scheduler
  import opened Protocol
  import opened ProtocolTiming

  /** Three tests for the serial phase. */
  const LATE: seq<Test> :=
    [Test("a", "", ["serial"], true), Test("b", "", ["serial"], true), Test("c", "", ["serial"], true)]

  lemma LatePlan(r: Runner)
    ensures Plan(r, LATE).serial == [0, 1, 2] && Plan(r, LATE).parallel == []
  {
    assert LATE[..2][..1] == LATE[..1] && LATE[..1][..0] == [];
    assert IsSerial(LATE[0]) && IsSerial(LATE[1]) && IsSerial(LATE[2]);
    assert Queue(LATE[..1], false) == [0] && Queue(LATE[..1], true) == [];
    assert Queue(LATE[..2], false) == [0, 1] && Queue(LATE[..2], true) == [];
  }

  lemma {:induction false} LeadsOn(c: Setup, s: State, acts: seq<Action>, t: State, more: seq<Action>, u: State)
    requires Wf(c, s) && Leads(c, s, acts, t) && Wf(c, t) && Leads(c, t, more, u)
    ensures Leads(c, s, acts + more, u)
    decreases |acts|
  {
    if acts == [] {
      assert acts + more == more;
    } else {
      assert (acts + more)[1..] == acts[1..] + more;
      LeadsOn(c, Apply(c, s, acts[0]), acts[1..], t, more, u);
    }
  }

  predicate Unfold(k: nat) {
    k >= 0
  }

  /** `Leads` between well-formed states. The quantifier is there to keep the
      definition closed: it says nothing more than its body, but the verifier
      looks inside only after `assert Unfold(0);`, so that lemmas that merely put
      paths together do not work through every step on them. */
  ghost predicate Path(c: Setup, s: State, acts: seq<Action>, t: State) {
    forall k: nat {:trigger Unfold(k)} :: Unfold(k) ==> Wf(c, s) && Wf(c, t) && Leads(c, s, acts, t)
  }

  lemma Nowhere(c: Setup, s: State)
    requires Wf(c, s)
    ensures Path(c, s, [], s)
  {
  }

  lemma Chain(c: Setup, s: State, acts: seq<Action>, t: State, more: seq<Action>, u: State)
    requires Path(c, s, acts, t) && Path(c, t, more, u)
    ensures Path(c, s, acts + more, u)
  {
    assert Unfold(0);
    LeadsOn(c, s, acts, t, more, u);
  }

  lemma Then(c: Setup, s: State, acts: seq<Action>, t: State, a: Action, u: State)
    requires Path(c, s, acts, t) && Wf(c, t) && Enabled(c, t, a) && Apply(c, t, a) == u
    ensures Path(c, s, acts + [a], u)
  {
    assert Unfold(0);
    assert [a][1..] == [];
    assert Leads(c, t, [a], u);
    LeadsOn(c, s, acts, t, [a], u);
  }

  /** One serial worker, feeding under way, the watchdog due at `next`. */
  function Solo(now: nat, m: Mode, k: nat, lock: Option<nat>, next: nat, board: Board,
                seen: seq<(nat, Result)>): State
  {
    State(now, false, Feed(false, k), [Worker(false, m)], lock, Armed(next), board, 0, false, seen)
  }

  ghost predicate LateSetup(c: Setup) {
    c.runner.stallTimeout > 0 && Planned(c) && |c.tests| == 3 && c.serial == [0, 1, 2] && c.parallel == []
  }

  /** When a body is abandoned, if it ever is. */
  function Deadline(c: Setup, m: Mode): nat
    requires c.runner.timeout > 0 && m.Busy()
  {
    m.start + c.runner.timeout + Grace(c.runner)
  }

  /** A worker holding its test at `now`, and not late with it. */
  predicate Holds(c: Setup, m: Mode, now: nat) {
    && m.InRunOne() && m.pos < 3 && m.start <= now
    && (m.Body? && c.runner.timeout > 0 ==> now <= Deadline(c, m))
    && (m.Cleaning? ==> c.runner.timeout > 0 && m.since == Deadline(c, m))
  }

  /** The per-test deadlines, as far as they are set, leave a test until `t`. */
  predicate Allows(c: Setup, start: nat, t: nat) {
    c.runner.timeout > 0 && c.runner.cleanupTimeout > 0 ==> t <= start + TestBound(c)
  }

  predicate SoloOk(c: Setup, b: Board) {
    |b.results| == |b.done| == |c.tests|
  }

  lemma SoloQuiet(c: Setup, now: nat, m: Mode, k: nat, next: nat, b: Board, seen: seq<(nat, Result)>)
    requires LateSetup(c) && SoloOk(c, b) && k < 3 && m.InRunOne() && m.pos < 3 && now < next
    requires m.Body? && c.runner.timeout > 0 ==> now < m.start + c.runner.timeout + Grace(c.runner)
    requires m.Cleaning? && c.runner.cleanupTimeout > 0 ==> now < m.since + c.runner.cleanupTimeout
    ensures Quiet(c, Solo(now, m, k, None, next, b, seen))
  {
  }

  /** Abandoning a body at its deadline, so that the clock may move. */
  lemma LetGo(c: Setup, now: nat, m: Mode, k: nat, next: nat, b: Board, seen: seq<(nat, Result)>)
    returns (acts: seq<Action>, m': Mode)
    requires LateSetup(c) && SoloOk(c, b) && k < 3 && Holds(c, m, now) && Allows(c, m.start, now + 1)
    ensures Holds(c, m', now) && m'.pos == m.pos && m'.start == m.start
    ensures m'.Body? && c.runner.timeout > 0 ==> now < Deadline(c, m')
    ensures m'.Cleaning? && c.runner.cleanupTimeout > 0 ==> now < m'.since + c.runner.cleanupTimeout
    ensures m'.Cleaning? ==> m' == m || (m'.abandoned && m'.status == TimedOut)
    ensures Path(c, Solo(now, m, k, None, next, b, seen), acts, Solo(now, m', k, None, next, b, seen))
  {
    var s := Solo(now, m, k, None, next, b, seen);
    acts, m' := [], m;
    Nowhere(c, s);
    if m.Body? && c.runner.timeout > 0 && now == Deadline(c, m) {
      m' := Cleaning(m.pos, m.start, now, TimedOut, true);
      HoldAbandon(c, s, Solo(now, m', k, None, next, b, seen));
      Then(c, s, acts, s, Abandon(0), Solo(now, m', k, None, next, b, seen));
      acts := acts + [Abandon(0)];
    }
  }

  /** Keeping the watchdog content, and letting one unit of time pass. */
  lemma Tick(c: Setup, now: nat, m: Mode, k: nat, next: nat, b: Board, seen: seq<(nat, Result)>, later: nat)
    returns (acts: seq<Action>, next': nat)
    requires later == now + 1
    requires LateSetup(c) && SoloOk(c, b) && k < 3 && m.InRunOne() && m.pos < 3
    requires m.Body? && c.runner.timeout > 0 ==> now < m.start + c.runner.timeout + Grace(c.runner)
    requires m.Cleaning? && c.runner.cleanupTimeout > 0 ==> now < m.since + c.runner.cleanupTimeout
    requires b.progress <= now < b.progress + c.runner.stallTimeout
    requires now <= next <= now + Interval(c.runner)
    ensures next' == (if now == next then next + Interval(c.runner) else next)
    ensures Path(c, Solo(now, m, k, None, next, b, seen), acts, Solo(later, m, k, None, next', b, seen))
  {
    var s := Solo(now, m, k, None, next, b, seen);
    next' := if now == next then next + Interval(c.runner) else next;
    var u := Solo(now, m, k, None, next', b, seen);
    acts := [];
    Nowhere(c, s);
    if next' != next {
      Then(c, s, acts, s, WatchTick, u);
      acts := acts + [WatchTick];
    }
    SoloQuiet(c, now, m, k, next', b, seen);
    Then(c, s, acts, u, Delay, Solo(later, m, k, None, next', b, seen));
    acts := acts + [Delay];
  }

  /** Holding a worker for one more unit of time. */
  lemma HoldOne(c: Setup, now: nat, m: Mode, k: nat, next: nat, b: Board, seen: seq<(nat, Result)>, later: nat)
    returns (acts: seq<Action>, m': Mode, next': nat)
    requires LateSetup(c) && SoloOk(c, b) && k < 3 && Holds(c, m, now) && Allows(c, m.start, later)
    requires later == now + 1
    requires b.progress <= now < b.progress + c.runner.stallTimeout
    requires now <= next <= now + Interval(c.runner)
    ensures Holds(c, m', later) && m'.pos == m.pos && m'.start == m.start
    ensures m'.Cleaning? ==> m' == m || (m'.abandoned && m'.status == TimedOut)
    ensures next' == (if now == next then next + Interval(c.runner) else next)
    ensures Path(c, Solo(now, m, k, None, next, b, seen), acts, Solo(later, m', k, None, next', b, seen))
  {
    var more;
    acts, m' := LetGo(c, now, m, k, next, b, seen);
    more, next' := Tick(c, now, m', k, next, b, seen, later);
    Chain(c, Solo(now, m, k, None, next, b, seen), acts, Solo(now, m', k, None, next, b, seen),
          more, Solo(later, m', k, None, next', b, seen));
    acts := acts + more;
  }

  lemma HoldAbandon(c: Setup, s: State, t: State)
    requires Wf(c, s) && |s.workers| == 1 && Ready(c, s, Abandon(0))
    requires var m := s.workers[0].mode;
             t == s.(workers := [s.workers[0].(mode := Cleaning(m.pos, m.start, s.now, TimedOut, true))])
    ensures Apply(c, s, Abandon(0)) == t
  {
  }

  /** Where the watchdog's looks fall: at its one interval, or at multiples of 30s. */
  predicate OnGrid(r: Runner, x: nat)
    requires r.stallTimeout > 0
  {
    if r.stallTimeout <= WATCH_CAP then x == r.stallTimeout else x % WATCH_CAP == 0
  }

  /** Holding a worker until `target`, which both the test's own bounds and the
      stall timeout allow. */
  lemma {:induction false} HoldUntil(c: Setup, now: nat, m: Mode, k: nat, next: nat, b: Board,
                                     seen: seq<(nat, Result)>, target: nat)
    returns (acts: seq<Action>, m': Mode, next': nat)
    requires LateSetup(c) && SoloOk(c, b) && k < 3 && Holds(c, m, now) && Allows(c, m.start, target)
    requires b.progress <= now <= target <= b.progress + c.runner.stallTimeout
    requires now <= next <= now + Interval(c.runner) && OnGrid(c.runner, next)
    requires c.runner.stallTimeout <= WATCH_CAP ==> target <= c.runner.stallTimeout
    ensures Holds(c, m', target) && m'.pos == m.pos && m'.start == m.start
    ensures m'.Cleaning? ==> m' == m || (m'.abandoned && m'.status == TimedOut)
    ensures target <= next' <= target + Interval(c.runner) && OnGrid(c.runner, next')
    ensures now < target ==> next' < target + Interval(c.runner)
    ensures now == target ==> next' == next
    ensures Path(c, Solo(now, m, k, None, next, b, seen), acts, Solo(target, m', k, None, next', b, seen))
    decreases target - now
  {
    if now == target {
      acts, m', next' := [], m, next;
      Nowhere(c, Solo(now, m, k, None, next, b, seen));
    } else {
      var prior := target - 1;
      var held, m1, next1 := HoldUntil(c, now, m, k, next, b, seen, prior);
      var last;
      last, m', next' := HoldOne(c, prior, m1, k, next1, b, seen, target);
      NextOnGrid(c.runner, prior, next1, next');
      Chain(c, Solo(now, m, k, None, next, b, seen), held, Solo(prior, m1, k, None, next1, b, seen),
            last, Solo(target, m', k, None, next', b, seen));
      acts := held + last;
    }
  }

  lemma NextOnGrid(r: Runner, now: nat, next: nat, next': nat)
    requires r.stallTimeout > 0 && OnGrid(r, next) && now <= next <= now + Interval(r)
    requires next' == (if now == next then next + Interval(r) else next)
    requires r.stallTimeout <= WATCH_CAP ==> now < r.stallTimeout
    ensures OnGrid(r, next') && now + 1 <= next' <= now + Interval(r)
  {
  }

  /** A test that is held ends at once when it is let go. */
  lemma EndTest(c: Setup, now: nat, m: Mode, next: nat, b: Board) returns (acts: seq<Action>, rep: Mode)
    requires LateSetup(c) && SoloOk(c, b) && m.InRunOne() && m.pos == 0
    ensures rep.Reporting? && rep.pos == 0 && rep.step == Store
    ensures m.Cleaning? && m.abandoned ==> rep.verdict == TimedOut
    ensures Path(c, Solo(now, m, 1, None, next, b, []), acts, Solo(now, rep, 1, None, next, b, []))
  {
    var s := Solo(now, m, 1, None, next, b, []);
    acts := [];
    Nowhere(c, s);
    var m1 := if m.Body? then Cleaning(0, m.start, now, Passed, false) else m;
    var s1 := Solo(now, m1, 1, None, next, b, []);
    if m.Body? {
      Then(c, s, acts, s, BodyEnds(0, Passed), s1);
      acts := acts + [BodyEnds(0, Passed)];
    }
    var v := Verdict(m1.abandoned, m1.status, ContextDone(c, s1, m1.start), false);
    rep := Reporting(0, m1.start, v, Store);
    Then(c, s, acts, s1, CleanupEnds(0, false), Solo(now, rep, 1, None, next, b, []));
    acts := acts + [CleanupEnds(0, false)];
  }

  /** A test that ends at once after being held hands its worker the next one. */
  lemma PassOn(c: Setup, now: nat, m: Mode, next: nat, b: Board)
    returns (acts: seq<Action>, b': Board, seen: seq<(nat, Result)>)
    requires LateSetup(c) && SoloOk(c, b) && m.InRunOne() && m.pos == 0
    ensures SoloOk(c, b') && b'.progress == now
    ensures m.Cleaning? && m.abandoned ==> b'.err == b.CountLeak(c.runner.maxLeaked, TimedOut).err
    ensures Path(c, Solo(now, m, 1, None, next, b, []), acts, Solo(now, Body(1, now), 2, None, next, b', seen))
  {
    var s := Solo(now, m, 1, None, next, b, []);
    var rep;
    acts, rep := EndTest(c, now, m, next, b);
    var s2 := Solo(now, rep, 1, None, next, b, []);
    var more;
    more, b', seen := ReportAll(c, now, rep, next, b);
    Chain(c, s, acts, s2, more, Solo(now, Idle, 1, None, next, b', seen));
    acts := acts + more;
    Then(c, s, acts, Solo(now, Idle, 1, None, next, b', seen), FeedTo(0),
         Solo(now, Body(1, now), 2, None, next, b', seen));
    acts := acts + [FeedTo(0)];
  }

  lemma ReportAll(c: Setup, now: nat, rep: Mode, next: nat, b: Board)
    returns (acts: seq<Action>, b': Board, seen: seq<(nat, Result)>)
    requires LateSetup(c) && SoloOk(c, b) && rep.Reporting? && rep.pos == 0 && rep.step == Store
    ensures SoloOk(c, b') && b'.progress == now && b'.err == b.CountLeak(c.runner.maxLeaked, rep.verdict).err
    ensures Path(c, Solo(now, rep, 1, None, next, b, []), acts, Solo(now, Idle, 1, None, next, b', seen))
  {
    var s := Solo(now, rep, 1, None, next, b, []);
    var b1 := b.Stamp(now);
    var s1 := Solo(now, rep.(step := Leak), 1, None, next, b1, []);
    Nowhere(c, s);
    Then(c, s, [], s, Report(0), s1);
    acts := [] + [Report(0)];
    var counted, b2 := ReportCount(c, now, rep.(step := Leak), next, b1);
    var s2 := Solo(now, rep.(step := Lock), 1, None, next, b2, []);
    Chain(c, s, acts, s1, counted, s2);
    acts := acts + counted;
    var more;
    more, b', seen := ReportLocked(c, now, rep.(step := Lock), next, b2);
    Chain(c, s, acts, s2, more, Solo(now, Idle, 1, None, next, b', seen));
    acts := acts + more;
  }

  lemma ReportCount(c: Setup, now: nat, rep: Mode, next: nat, b: Board) returns (acts: seq<Action>, b': Board)
    requires LateSetup(c) && SoloOk(c, b) && rep.Reporting? && rep.pos == 0 && rep.step == Leak
    ensures b' == b.CountLeak(c.runner.maxLeaked, rep.verdict)
    ensures Path(c, Solo(now, rep, 1, None, next, b, []), acts, Solo(now, rep.(step := Lock), 1, None, next, b', []))
  {
    var s := Solo(now, rep, 1, None, next, b, []);
    Nowhere(c, s);
    acts, b' := [], b;
    var last := s;
    if rep.verdict == TimedOut {
      last := Solo(now, rep.(step := Judge(b.leaked + 1)), 1, None, next, b.Bump(), []);
      Then(c, s, acts, s, Report(0), last);
      acts := acts + [Report(0)];
      b' := b.Bump().Judge(c.runner.maxLeaked, b.leaked + 1);
    }
    Then(c, s, acts, last, Report(0), Solo(now, rep.(step := Lock), 1, None, next, b', []));
    acts := acts + [Report(0)];
  }

  lemma ReportLocked(c: Setup, now: nat, rep: Mode, next: nat, b: Board)
    returns (acts: seq<Action>, b': Board, seen: seq<(nat, Result)>)
    requires LateSetup(c) && SoloOk(c, b) && rep.Reporting? && rep.pos == 0 && rep.step == Lock
    ensures SoloOk(c, b') && b'.progress == b.progress && b'.err == b.err
    ensures Path(c, Solo(now, rep, 1, None, next, b, []), acts, Solo(now, Idle, 1, None, next, b', seen))
  {
    var s := Solo(now, rep, 1, None, next, b, []);
    var r := Result(c.tests[0], rep.verdict);
    var b1 := b.Write(0, r);
    b' := b1.Mark(0);
    seen := [(0, r)];
    var s1 := Solo(now, rep.(step := Write), 1, Some(0), next, b, []);
    var s2 := Solo(now, rep.(step := Mark), 1, Some(0), next, b1, []);
    var s3 := Solo(now, rep.(step := Observe), 1, Some(0), next, b', []);
    Nowhere(c, s);
    Then(c, s, [], s, Report(0), s1);
    acts := [] + [Report(0)];
    Then(c, s, acts, s1, Report(0), s2);
    acts := acts + [Report(0)];
    Then(c, s, acts, s2, Report(0), s3);
    acts := acts + [Report(0)];
    Then(c, s, acts, s3, Report(0), Solo(now, Idle, 1, None, next, b', seen));
    acts := acts + [Report(0)];
  }

  /** Starting the run: the serial worker gets the first test. */
  lemma Opening(c: Setup)
    requires LateSetup(c)
    ensures Path(c, Init(c), [BeginPhase] + [FeedTo(0)],
                  Solo(0, Body(0, 0), 1, None, Interval(c.runner), NewBoard(3, 0), []))
  {
    var s := Init(c);
    var s1 := Solo(0, Idle, 0, None, Interval(c.runner), NewBoard(3, 0), []);
    assert Apply(c, s, BeginPhase) == s1 by {
      assert [] + seq(1, _ => Worker(false, Idle)) == [Worker(false, Idle)];
    }
    Nowhere(c, s);
    Then(c, s, [], s, BeginPhase, s1);
    Then(c, s, [BeginPhase], s1, FeedTo(0), Solo(0, Body(0, 0), 1, None, Interval(c.runner), NewBoard(3, 0), []));
  }

  /** When the first test has to end for the watchdog to look exactly one
      stall timeout later. */
  function Offset(r: Runner): nat
    requires r.stallTimeout > 0
  {
    if r.stallTimeout <= WATCH_CAP then 0 else (WATCH_CAP - r.stallTimeout % WATCH_CAP) % WATCH_CAP
  }

  lemma OnlyLook(r: Runner, next: nat)
    requires r.stallTimeout > 0 && OnGrid(r, next)
    requires Offset(r) + r.stallTimeout <= next < Offset(r) + r.stallTimeout + Interval(r)
    ensures next == Offset(r) + r.stallTimeout
  {
  }

  /** The first test is over at the offset and the second one has started. */
  lemma Prelude(c: Setup) returns (acts: seq<Action>, next: nat, b: Board, seen: seq<(nat, Result)>)
    requires LateSetup(c) && Allows(c, 0, c.runner.stallTimeout)
    ensures var p := Offset(c.runner);
            && SoloOk(c, b) && b.progress == p && p <= next <= p + Interval(c.runner) && OnGrid(c.runner, next)
            && Path(c, Init(c), acts, Solo(p, Body(1, p), 2, None, next, b, seen))
  {
    var i, p := Interval(c.runner), Offset(c.runner);
    Opening(c);
    acts := [BeginPhase] + [FeedTo(0)];
    var held, m1;
    held, m1, next := HoldUntil(c, 0, Body(0, 0), 1, i, NewBoard(3, 0), [], p);
    var s1 := Solo(p, m1, 1, None, next, NewBoard(3, 0), []);
    Chain(c, Init(c), acts, Solo(0, Body(0, 0), 1, None, i, NewBoard(3, 0), []), held, s1);
    acts := acts + held;
    var passed;
    passed, b, seen := PassOn(c, p, m1, next, NewBoard(3, 0));
    Chain(c, Init(c), acts, s1, passed, Solo(p, Body(1, p), 2, None, next, b, seen));
    acts := acts + passed;
  }

  lemma LateLook(c: Setup, t: State) returns (s: State)
    requires Wf(c, t) && t.watcher == Armed(t.now) && t.now >= t.board.progress + c.runner.stallTimeout
    ensures Enabled(c, t, WatchTick) && Apply(c, t, WatchTick) == s && s.alarm
  {
    s := Watch(c, t);
  }

  /** A run with an alarm, for every setting whose test bound reaches the stall timeout. */
  lemma AlarmRun(c: Setup) returns (acts: seq<Action>, s: State)
    requires LateSetup(c) && Allows(c, 0, c.runner.stallTimeout)
    ensures Reached(c, acts, s) && s.alarm
  {
    var stall, p := c.runner.stallTimeout, Offset(c.runner);
    var next, b, seen;
    acts, next, b, seen := Prelude(c);
    var late, m, next' := HoldUntil(c, p, Body(1, p), 2, next, b, seen, p + stall);
    OnlyLook(c.runner, next');
    var t := Solo(p + stall, m, 2, None, next', b, seen);
    Chain(c, Init(c), acts, Solo(p, Body(1, p), 2, None, next, b, seen), late, t);
    acts := acts + late;
    s := LateLook(c, t);
    Then(c, Init(c), acts, t, WatchTick, s);
    acts := acts + [WatchTick];
    assert Unfold(0);
  }
}
