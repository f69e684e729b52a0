/** The headline results about time: no false alarm, no hang, and every run ends. */
module ProtocolEnding {
  import opened Protocol
  import opened ProtocolSafety
  import opened ProtocolTiming

  ghost predicate Unalarmed(c: Setup, s: State) {
    Bounded(c) && TestBound(c) < c.runner.stallTimeout ==> !s.alarm
  }

  lemma UnalarmedStep(c: Setup, s: State, a: Action)
    requires Wf(c, s) && Watched(c, s) && Timed(c, s) && (Bounded(c) ==> Lively(c, s)) && Unalarmed(c, s)
    requires Enabled(c, s, a)
    ensures Unalarmed(c, Apply(c, s, a))
  {
    if Bounded(c) && a.WatchTick? && s.now != s.board.progress {
      var w :| 0 <= w < |s.workers| && Since(s.workers[w].mode, s.board.progress);
      assert InTime(c, s.workers[w].mode, s.now);
    }
  }

  ghost predicate Punctual(c: Setup, s: State) {
    && Safe(c, s) && Watched(c, s) && Credited(c, s) && Timed(c, s) && Unalarmed(c, s)
    && (Bounded(c) ==> Paced(c, s) && Lively(c, s))
  }

  lemma PunctualInit(c: Setup)
    requires Planned(c)
    ensures Punctual(c, Init(c))
  {
    SafeInit(c);
    assert Outstanding(c, Init(c)) == |c.tests|;
  }

  lemma PunctualStep(c: Setup, s: State, a: Action)
    requires Punctual(c, s) && Enabled(c, s, a)
    ensures Punctual(c, Apply(c, s, a))
  {
    SafeStep(c, s, a);
    WatchedStep(c, s, a);
    CreditedStep(c, s, a);
    TimedStep(c, s, a);
    UnalarmedStep(c, s, a);
    if Bounded(c) {
      PacedStep(c, s, a);
      LivelyStep(c, s, a);
    }
  }

  lemma {:induction false} PunctualRun(c: Setup, s: State, acts: seq<Action>, t: State)
    requires Punctual(c, s) && Leads(c, s, acts, t)
    ensures Punctual(c, t)
    decreases |acts|
  {
    if acts != [] {
      PunctualStep(c, s, acts[0]);
      PunctualRun(c, Apply(c, s, acts[0]), acts[1..], t);
    }
  }

  lemma PunctualReached(c: Setup, acts: seq<Action>, s: State)
    requires Planned(c) && Reached(c, acts, s)
    ensures Punctual(c, s)
  {
    PunctualInit(c);
    PunctualRun(c, Init(c), acts, s);
  }

  /** When one test's bounds fit inside the stall timeout, the watchdog never
      fires, in any run. */
  lemma NoFalseAlarm(c: Setup, acts: seq<Action>, s: State)
    requires Planned(c) && Reached(c, acts, s)
    requires Bounded(c) && TestBound(c) < c.runner.stallTimeout
    ensures !s.alarm
  {
    PunctualReached(c, acts, s);
  }

  /** With a stall timeout, `Run` has returned within that and one look of the
      watchdog after the last finished test, and in any case within one such
      wait per test and one more, whatever bodies and cleanups do. */
  lemma AntiHang(c: Setup, acts: seq<Action>, s: State)
    requires Planned(c) && Reached(c, acts, s) && c.runner.stallTimeout > 0
    ensures var look := if c.runner.stallTimeout < 30 * SECOND then c.runner.stallTimeout else 30 * SECOND;
            var wait := c.runner.stallTimeout + look;
            && (!s.main.Returned? ==> s.now < s.board.progress + wait && s.now <= (|c.tests| + 1) * wait)
            && (s.main.Returned? ==> s.main.at < s.main.last + wait && s.main.at <= (|c.tests| + 1) * wait)
  {
    PunctualReached(c, acts, s);
    if !s.main.Returned? {
      MoreCredit(|c.tests| - Outstanding(c, s), |c.tests|, Backstop(c));
      MoreCredit(|c.tests|, |c.tests| + 1, Backstop(c));
    }
  }

  function CeilDiv(n: nat, w: nat): nat
    requires n > 0 ==> w > 0
  {
    if n == 0 then 0 else (n - 1) / w + 1
  }

  lemma SpanIsCeil(c: Setup, pool: bool)
    requires Bounded(c)
    ensures |c.Entries(pool)| > 0 ==> Width(c, pool) > 0
    ensures Span(c, pool) == CeilDiv(|c.Entries(pool)|, Width(c, pool)) * TestBound(c)
  {
    var n, w, d := |c.Entries(pool)|, Width(c, pool), TestBound(c);
    if n > 0 {
      SlotIsFloor(n - 1, w, d);
      MoreCredit((n - 1) / w, (n - 1) / w + 1, d);
    }
  }

  /** With both per-test timeouts, entry k of a queue worked by w workers starts
      within floor(k / w) test bounds of its phase, and the run is over within
      one test bound per serial test and per round of the pool. */
  lemma Makespan(c: Setup, acts: seq<Action>, s: State)
    requires Planned(c) && Reached(c, acts, s) && Bounded(c)
    ensures |c.parallel| > 0 ==> Width(c, true) > 0
    ensures var n, asked := |c.parallel|, if c.runner.parallel < 1 then 1 else c.runner.parallel;
            Width(c, true) == if asked < n then asked else n
    ensures TestBound(c) == c.runner.timeout + c.runner.cleanupTimeout
                            + if c.runner.watchdogGrace > 0 then c.runner.watchdogGrace else 5 * SECOND
    ensures !s.main.Returned? && !s.main.Begin? ==>
              && (if s.main.pool then s.began <= |c.serial| * TestBound(c) else s.began == 0)
              && forall w :: 0 <= w < |s.workers| && s.workers[w].pool == s.main.pool && s.workers[w].mode.Busy() ==>
                   && Width(c, s.main.pool) > 0
                   && s.workers[w].mode.start
                      <= s.began + s.workers[w].mode.pos / Width(c, s.main.pool) * TestBound(c)
    ensures (if s.main.Returned? then s.main.at else s.now)
            <= |c.serial| * TestBound(c) + CeilDiv(|c.parallel|, Width(c, true)) * TestBound(c)
  {
    PunctualReached(c, acts, s);
    var d := TestBound(c);
    SpanIsCeil(c, false);
    SpanIsCeil(c, true);
    assert CeilDiv(|c.serial|, Width(c, false)) == |c.serial|;
    if !s.main.Returned? && !s.main.Begin? {
      forall w | 0 <= w < |s.workers| && s.workers[w].pool == s.main.pool && s.workers[w].mode.Busy()
        ensures Width(c, s.main.pool) > 0
        ensures s.workers[w].mode.start <= s.began + s.workers[w].mode.pos / Width(c, s.main.pool) * d
      {
        assert OnSchedule(s.workers[w].mode, s.began, Width(c, s.main.pool), d);
        SlotIsFloor(s.workers[w].mode.pos, Width(c, s.main.pool), d);
      }
    }
    if !s.main.Returned? {
      PacedHorizon(c, s);
    }
  }

  // ----- Every run ends -----

  /** Steps a worker still has to take with the test in its hands. */
  function Weight(m: Mode): nat {
    match m
    case Exited => 0
    case Idle => 1
    case Reporting(_, _, _, step) =>
      (match step case Observe => 2 case Mark => 3 case Write => 4 case Lock => 5
                  case Judge(_) => 6 case Leak => 7 case Store => 8)
    case Cleaning(_, _, _, _, _) => 9
    case Body(_, _) => 10
  }

  /** Steps still to come from entries not handed out and from `Run` itself. */
  function ToCome(c: Setup, m: Main): nat {
    var ns, np := |c.serial|, |c.parallel|;
    match m
    case Begin(p) => if p then 11 * np + 5 else 11 * ns + 11 * np + 9
    case Feed(p, k) =>
      var n := |c.Entries(p)|;
      (if k <= n then 10 * (n - k) else 0) + (if p then 4 else 11 * np + 8)
    case Wait(p) => if p then 3 else 11 * np + 7
    case After(p) => if p then 2 else 11 * np + 6
    case Returned(_, _, _, _, _, _, _, _) => 0
  }

  function Looks(s: State): nat {
    if s.watcher.Off? then 0 else if s.watcher.next <= s.now then 2 else 1
  }

  /** Steps still to come from the workers and from `Run` itself. */
  function Work(c: Setup, s: State): nat {
    Total(s.workers, Weight) + ToCome(c, s.main)
  }

  /** A bound on the steps left, given that the clock will not pass `horizon`. */
  function Fuel(c: Setup, s: State, horizon: nat): int {
    Work(c, s) + (if s.cancelled then 0 else 1) + Looks(s) + 2 * (horizon - s.now)
  }

  lemma WorkWorker(c: Setup, s: State, a: Action)
    requires Wf(c, s) && OfWorker(a) && Ready(c, s, a)
    ensures Work(c, WorkerStep(c, s, a)) < Work(c, s)
  {
    var m := NextMode(c, s, a);
    TotalPut(s.workers, Weight, a.w, s.workers[a.w].(mode := m));
    assert Weight(m) < Weight(s.workers[a.w].mode);
  }

  lemma WorkFeed(c: Setup, s: State, w: nat)
    requires Wf(c, s) && Ready(c, s, FeedTo(w))
    ensures Work(c, MainStep(c, s, FeedTo(w))) < Work(c, s)
  {
    TotalPut(s.workers, Weight, w, s.workers[w].(mode := Body(s.main.next, s.now)));
  }

  lemma BeginToCome(c: Setup, p: bool)
    ensures ToCome(c, if |c.Entries(p)| == 0 then After(p) else Feed(p, 0)) + |c.Entries(p)| < ToCome(c, Begin(p))
    ensures Width(c, p) <= |c.Entries(p)|
  {
  }

  lemma WorkBegin(c: Setup, s: State)
    requires Wf(c, s) && s.main.Begin?
    ensures Work(c, MainStep(c, s, BeginPhase)) < Work(c, s)
  {
    var p := s.main.pool;
    BeginToCome(c, p);
    if |c.Entries(p)| > 0 {
      TotalGrow(s.workers, Weight, Width(c, p), p);
    }
  }

  /** Every step of the harness itself, the watchdog aside, leaves less to do. */
  lemma WorkStep(c: Setup, s: State, a: Action)
    requires Wf(c, s) && Ready(c, s, a) && (OfMain(a) || OfWorker(a))
    ensures Work(c, if OfMain(a) then MainStep(c, s, a) else WorkerStep(c, s, a)) < Work(c, s)
  {
    if OfWorker(a) {
      WorkWorker(c, s, a);
    } else if a.FeedTo? {
      WorkFeed(c, s, a.w);
    } else if a.BeginPhase? {
      WorkBegin(c, s);
    }
  }

  lemma InsideFrame(c: Setup, s: State, a: Action)
    requires Wf(c, s) && Ready(c, s, a) && (OfMain(a) || OfWorker(a))
    ensures var t := if OfMain(a) then MainStep(c, s, a) else WorkerStep(c, s, a);
            t.now == s.now && t.watcher == s.watcher && (s.cancelled ==> t.cancelled)
  {
  }

  lemma FuelOutside(c: Setup, s: State, a: Action, h: nat)
    requires Wf(c, s) && Watched(c, s) && Enabled(c, s, a) && !OfMain(a) && !OfWorker(a)
    ensures Fuel(c, Apply(c, s, a), h) < Fuel(c, s, h) && Work(c, Apply(c, s, a)) == Work(c, s)
  {
    OutsideFrame(c, s, a);
  }

  /** Every step, the passing of time included, uses up fuel. */
  lemma FuelStep(c: Setup, s: State, a: Action, h: nat)
    requires Wf(c, s) && Watched(c, s) && Enabled(c, s, a)
    ensures Fuel(c, Apply(c, s, a), h) < Fuel(c, s, h) && Work(c, Apply(c, s, a)) <= Work(c, s)
  {
    if OfMain(a) || OfWorker(a) {
      WorkStep(c, s, a);
      InsideFrame(c, s, a);
    } else {
      FuelOutside(c, s, a, h);
    }
  }

  /** The latest instant at which `Run` can still be running. */
  function Horizon(c: Setup): nat
    requires c.runner.stallTimeout > 0 || (c.runner.timeout > 0 && c.runner.cleanupTimeout > 0)
  {
    if c.runner.stallTimeout > 0 then (|c.tests| + 1) * Backstop(c) else Span(c, false) + Span(c, true)
  }

  lemma PacedHorizon(c: Setup, s: State)
    requires Bounded(c) && Paced(c, s) && !s.main.Returned?
    ensures s.now <= Span(c, false) + Span(c, true)
  {
    if s.main.Feed? {
      var n, k := |c.Entries(s.main.pool)|, s.main.next;
      SlotMono(if k < n then k else n - 1, n - 1, Width(c, s.main.pool), TestBound(c));
    }
  }

  lemma WithinHorizon(c: Setup, s: State)
    requires Watched(c, s) && Credited(c, s) && (Bounded(c) ==> Paced(c, s))
    requires (c.runner.stallTimeout > 0 || Bounded(c)) && !s.main.Returned?
    ensures s.now <= Horizon(c)
  {
    if c.runner.stallTimeout > 0 {
      MoreCredit(|c.tests| - Outstanding(c, s), |c.tests|, Backstop(c));
      MoreCredit(|c.tests|, |c.tests| + 1, Backstop(c));
    } else {
      PacedHorizon(c, s);
    }
  }

  /** What `Run` has returned does not change any more. */
  lemma ReturnedKeeps(c: Setup, s: State, a: Action)
    requires Wf(c, s) && Enabled(c, s, a) && s.main.Returned?
    ensures Apply(c, s, a).main == s.main
  {
    if !OfMain(a) && !OfWorker(a) {
      OutsideFrame(c, s, a);
    }
  }

  lemma {:induction false} FuelRun(c: Setup, s: State, acts: seq<Action>, t: State)
    requires Punctual(c, s) && Leads(c, s, acts, t) && (c.runner.stallTimeout > 0 || Bounded(c))
    ensures t.main.Returned? || (!s.main.Returned? && |acts| <= Fuel(c, s, Horizon(c)) - Fuel(c, t, Horizon(c)))
    decreases |acts|
  {
    if acts != [] {
      PunctualStep(c, s, acts[0]);
      FuelStep(c, s, acts[0], Horizon(c));
      FuelRun(c, Apply(c, s, acts[0]), acts[1..], t);
      if s.main.Returned? {
        ReturnedKeeps(c, s, acts[0]);
      }
    }
  }

  /** With a stall timeout, or with both per-test timeouts, `Run` returns: no run
      takes more than a fixed number of steps without having returned. The next
      step is always one of the harness itself or the passing of time. */
  lemma RunEnds(c: Setup, acts: seq<Action>, s: State)
    requires Planned(c) && Reached(c, acts, s) && (c.runner.stallTimeout > 0 || Bounded(c))
    ensures |acts| > 11 * |c.tests| + 12 + 2 * Horizon(c) ==> s.main.Returned?
    ensures Punctual(c, s) && exists a :: (Urgent(a) || a.Delay?) && Enabled(c, s, a)
  {
    PunctualInit(c);
    FuelRun(c, Init(c), acts, s);
    PunctualReached(c, acts, s);
    if !s.main.Returned? {
      WithinHorizon(c, s);
      assert Fuel(c, s, Horizon(c)) >= 0;
    }
    if Quiet(c, s) {
      assert Enabled(c, s, Delay);
    } else {
      var a :| Urgent(a) && Ready(c, s, a);
      assert Enabled(c, s, a);
    }
  }

  // ----- After a cancellation -----

  /** While somebody has cancelled and `Run` has not returned, the clock stands still. */
  lemma CancelledStands(c: Setup, s: State, a: Action)
    requires Wf(c, s) && Shape(c, s) && Mutex(s) && Enabled(c, s, a) && s.cancelled && !s.main.Returned?
    ensures Apply(c, s, a).now == s.now && Apply(c, s, a).cancelled
    ensures Apply(c, s, a).main.Returned? ==> Apply(c, s, a).main.at == s.now
  {
    if a.Delay? {
      var w := QuietMain(c, s);
    } else if OfMain(a) || OfWorker(a) {
      InsideFrame(c, s, a);
    } else {
      OutsideFrame(c, s, a);
    }
  }

  lemma {:induction false} ReturnedRun(c: Setup, s: State, acts: seq<Action>, t: State)
    requires Wf(c, s) && Leads(c, s, acts, t) && s.main.Returned?
    ensures t.main == s.main
    decreases |acts|
  {
    if acts != [] {
      ReturnedKeeps(c, s, acts[0]);
      ReturnedRun(c, Apply(c, s, acts[0]), acts[1..], t);
    }
  }

  lemma {:induction false} CancelledRun(c: Setup, s: State, acts: seq<Action>, t: State)
    requires Punctual(c, s) && Leads(c, s, acts, t) && s.cancelled && !s.main.Returned?
    ensures if t.main.Returned? then t.main.at == s.now
            else t.now == s.now && t.cancelled && |acts| <= Fuel(c, s, s.now) - Fuel(c, t, s.now)
    decreases |acts|
  {
    if acts != [] {
      var u := Apply(c, s, acts[0]);
      CancelledStands(c, s, acts[0]);
      PunctualStep(c, s, acts[0]);
      FuelStep(c, s, acts[0], s.now);
      if u.main.Returned? {
        ReturnedRun(c, u, acts[1..], t);
      } else {
        CancelledRun(c, u, acts[1..], t);
      }
    }
  }

  lemma {:induction false} WorkRun(c: Setup, s: State, acts: seq<Action>, t: State)
    requires Punctual(c, s) && Leads(c, s, acts, t)
    ensures Work(c, t) <= Work(c, s)
    decreases |acts|
  {
    if acts != [] {
      PunctualStep(c, s, acts[0]);
      FuelStep(c, s, acts[0], 0);
      WorkRun(c, Apply(c, s, acts[0]), acts[1..], t);
    }
  }

  /** Then the harness itself always has a next step. */
  lemma CancelledMoves(c: Setup, s: State)
    requires Wf(c, s) && Shape(c, s) && Mutex(s) && s.cancelled && !s.main.Returned?
    ensures !Quiet(c, s)
  {
    if Quiet(c, s) {
      var w := QuietMain(c, s);
    }
  }

  lemma FuelNow(c: Setup, s: State, now: nat)
    requires s.cancelled && s.now == now
    ensures 0 <= Fuel(c, s, now) <= Work(c, s) + 2
  {
  }

  lemma WorkInit(c: Setup)
    requires Planned(c)
    ensures Work(c, Init(c)) == 11 * |c.tests| + 9
  {
  }

  /** A cancelled run returns in the instant it is cancelled, even with no
      timeout set and every body and cleanup stuck: until it has returned the
      clock stands still, the harness has a next step, and only so many can be
      taken. */
  lemma CancelledReturns(c: Setup, acts: seq<Action>, s: State, more: seq<Action>, t: State)
    requires Planned(c) && Reached(c, acts, s) && s.cancelled && !s.main.Returned?
    requires Wf(c, s) && Leads(c, s, more, t)
    ensures t.main.Returned? ==> t.main.at == s.now
    ensures !t.main.Returned? ==> t.now == s.now && |more| <= 11 * |c.tests| + 11
                                  && exists a :: Urgent(a) && Enabled(c, t, a)
  {
    PunctualReached(c, acts, s);
    CancelledRun(c, s, more, t);
    if !t.main.Returned? {
      CancelledSteps(c, acts, s, more, t);
      PunctualRun(c, s, more, t);
      CancelledMoves(c, t);
      var a :| Urgent(a) && Ready(c, t, a);
      assert Enabled(c, t, a);
    }
  }

  lemma CancelledSteps(c: Setup, acts: seq<Action>, s: State, more: seq<Action>, t: State)
    requires Planned(c) && Reached(c, acts, s) && s.cancelled && t.cancelled && t.now == s.now
    requires |more| <= Fuel(c, s, s.now) - Fuel(c, t, s.now)
    ensures |more| <= 11 * |c.tests| + 11
  {
    PunctualInit(c);
    WorkInit(c);
    WorkRun(c, Init(c), acts, s);
    FuelNow(c, s, s.now);
    FuelNow(c, t, s.now);
  }
}
