/** How long a run can take: the stall backstop, the per-test bounds, and why
    one does not set off the other. */
module ProtocolTiming {
  import opened Protocol
  import opened ProtocolSafety

  // ----- What it means that time may pass -----

  /** While the clock moves, no worker is between tests without reason, late, or reporting. */
  lemma QuietWorkers(c: Setup, s: State)
    requires Wf(c, s) && Mutex(s) && Quiet(c, s)
    ensures s.lock.None?
    ensures forall w :: 0 <= w < |s.workers| ==>
              var m := s.workers[w].mode;
              && !m.Reporting?
              && (m.Idle? ==> !Closed(s.main, s.workers[w].pool))
              && (m.Body? && c.runner.timeout > 0 ==> s.now < m.start + c.runner.timeout + Grace(c.runner))
              && (m.Cleaning? && c.runner.cleanupTimeout > 0 ==> s.now < m.since + c.runner.cleanupTimeout)
  {
    assert s.lock.Some? ==> Ready(c, s, Report(s.lock.value));
    forall w: nat | w < |s.workers|
      ensures var m := s.workers[w].mode;
              && !m.Reporting?
              && (m.Idle? ==> !Closed(s.main, s.workers[w].pool))
              && (m.Body? && c.runner.timeout > 0 ==> s.now < m.start + c.runner.timeout + Grace(c.runner))
              && (m.Cleaning? && c.runner.cleanupTimeout > 0 ==> s.now < m.since + c.runner.cleanupTimeout)
    {
      assert !Ready(c, s, Report(w)) && !Ready(c, s, WorkerExit(w));
      assert !Ready(c, s, Abandon(w)) && !Ready(c, s, CleanupExpires(w));
    }
  }

  /** While the clock moves before `Run` returns, nobody has cancelled, and the
      current phase has a test in flight; while feeding, all its workers are busy. */
  lemma QuietMain(c: Setup, s: State) returns (w: nat)
    requires Wf(c, s) && Shape(c, s) && Mutex(s) && Quiet(c, s) && !s.main.Returned?
    ensures !s.cancelled && (s.main.Feed? || s.main.Wait?)
    ensures s.main.Feed? ==> s.main.next < |c.Entries(s.main.pool)|
    ensures s.main.Feed? ==> forall w :: 0 <= w < |s.workers| && s.workers[w].pool == s.main.pool ==>
                                           s.workers[w].mode.InRunOne()
    ensures w < |s.workers| && s.workers[w].pool == s.main.pool && s.workers[w].mode.InRunOne()
  {
    QuietWorkers(c, s);
    assert !Ready(c, s, BeginPhase) && !Ready(c, s, FeedStop) && !Ready(c, s, CloseQueue);
    assert !Ready(c, s, WaitDone) && !Ready(c, s, WaitStop) && !Ready(c, s, Advance) && !Ready(c, s, Return);
    if s.main.Feed? {
      forall w: nat | w < |s.workers| && s.workers[w].pool == s.main.pool ensures s.workers[w].mode.InRunOne() {
        assert !Ready(c, s, FeedTo(w));
      }
      w := if s.main.pool then Width(c, false) else 0;
      assert s.workers[w].pool == s.main.pool;
    } else {
      w :| 0 <= w < |s.workers| && s.workers[w].pool == s.main.pool && !s.workers[w].mode.Exited?;
    }
  }

  // ----- The stall backstop -----

  function Backstop(c: Setup): nat
    requires c.runner.stallTimeout > 0
  {
    c.runner.stallTimeout + Interval(c.runner)
  }

  /** The watchdog looks in time, and looking late enough it cancels. */
  ghost predicate Watched(c: Setup, s: State) {
    && s.board.progress <= s.now
    && (s.main.Returned? ==> s.cancelled)
    && (c.runner.stallTimeout <= 0 ==> s.watcher.Off? && !s.alarm)
    && (c.runner.stallTimeout > 0 ==>
          var b := Backstop(c);
          && (s.cancelled || s.watcher.Armed?)
          && (s.watcher.Armed? ==> s.now <= s.watcher.next < s.board.progress + b)
          && (!s.main.Returned? ==> s.now < s.board.progress + b)
          && (s.main.Returned? ==> s.main.at < s.main.last + b))
  }

  lemma WatchedDelay(c: Setup, s: State)
    requires Wf(c, s) && Shape(c, s) && Mutex(s) && Watched(c, s) && Quiet(c, s)
    ensures Watched(c, Apply(c, s, Delay))
  {
    assert !Ready(c, s, WatchTick) && !Ready(c, s, WatchStop);
    if !s.main.Returned? {
      var _ := QuietMain(c, s);
    }
  }

  lemma WatchedWorker(c: Setup, s: State, a: Action)
    requires Wf(c, s) && Watched(c, s) && OfWorker(a) && Ready(c, s, a)
    ensures Watched(c, WorkerStep(c, s, a))
  {
    assert NextBoard(c, s, a).progress == s.board.progress || NextBoard(c, s, a).progress == s.now;
  }

  lemma WatchedMain(c: Setup, s: State, a: Action)
    requires Wf(c, s) && Watched(c, s) && OfMain(a) && Ready(c, s, a)
    ensures Watched(c, MainStep(c, s, a))
  {
  }

  lemma WatchedOutside(c: Setup, s: State, a: Action)
    requires Wf(c, s) && Watched(c, s) && Enabled(c, s, a) && !OfMain(a) && !OfWorker(a) && !a.Delay?
    ensures Watched(c, Apply(c, s, a))
  {
  }

  lemma WatchedStep(c: Setup, s: State, a: Action)
    requires Wf(c, s) && Shape(c, s) && Mutex(s) && Watched(c, s) && Enabled(c, s, a)
    ensures Watched(c, Apply(c, s, a))
  {
    if a.Delay? {
      WatchedDelay(c, s);
    } else if OfWorker(a) {
      WatchedWorker(c, s, a);
    } else if OfMain(a) {
      WatchedMain(c, s, a);
    } else {
      WatchedOutside(c, s, a);
    }
  }

  // ----- Sums over the workers -----

  function Total(ws: seq<Worker>, f: Mode -> nat): nat {
    if ws == [] then 0 else Total(ws[..|ws| - 1], f) + f(ws[|ws| - 1].mode)
  }

  lemma {:induction false} TotalPut(ws: seq<Worker>, f: Mode -> nat, w: nat, x: Worker)
    requires w < |ws|
    ensures Total(ws[w := x], f) == Total(ws, f) - f(ws[w].mode) + f(x.mode)
  {
    var n := |ws| - 1;
    if w < n {
      assert ws[w := x][..n] == ws[..n][w := x];
      TotalPut(ws[..n], f, w, x);
    } else {
      assert ws[w := x][..n] == ws[..n];
    }
  }

  lemma {:induction false} TotalGrow(ws: seq<Worker>, f: Mode -> nat, n: nat, p: bool)
    ensures Total(ws + seq(n, _ => Worker(p, Idle)), f) == Total(ws, f) + n * f(Idle)
  {
    var more := seq(n, _ => Worker(p, Idle));
    if n == 0 {
      assert ws + more == ws;
    } else {
      assert (ws + more)[..|ws| + n - 1] == ws + seq(n - 1, _ => Worker(p, Idle));
      TotalGrow(ws, f, n - 1, p);
      assert (n - 1) * f(Idle) + f(Idle) == n * f(Idle);
    }
  }

  /** Whether a worker has a test whose end is still to be stamped. */
  function OpenTests(m: Mode): nat {
    if m.InRunOne() || (m.Reporting? && m.step == Store) then 1 else 0
  }

  /** Entries still to be handed out, if nobody cancels. */
  function Unfed(c: Setup, m: Main): nat {
    var ns, np := |c.serial|, |c.parallel|;
    match m
    case Begin(p) => if p then np else ns + np
    case Feed(p, k) =>
      var n := |c.Entries(p)|;
      (if k <= n then n - k else 0) + (if p then 0 else np)
    case Wait(p) => if p then 0 else np
    case After(p) => if p then 0 else np
    case Returned(_, _, _, _, _, _, _, _) => 0
  }

  function Outstanding(c: Setup, s: State): nat {
    Unfed(c, s.main) + Total(s.workers, OpenTests)
  }

  /** Tests only ever close, and only stamping one closes it. */
  ghost predicate Closes(c: Setup, s: State, t: State) {
    && Outstanding(c, t) <= Outstanding(c, s)
    && (t.board.progress == s.board.progress
        || (t.board.progress == s.now && Outstanding(c, t) == Outstanding(c, s) - 1))
  }

  lemma OpenMode(c: Setup, s: State, a: Action)
    requires OfWorker(a) && Ready(c, s, a)
    ensures var stamps := a.Report? && s.workers[a.w].mode.step == Store;
            OpenTests(NextMode(c, s, a)) + (if stamps then 1 else 0) == OpenTests(s.workers[a.w].mode)
  {
  }

  lemma ClosesWorker(c: Setup, s: State, a: Action)
    requires Wf(c, s) && OfWorker(a) && Ready(c, s, a)
    ensures Closes(c, s, WorkerStep(c, s, a))
  {
    OpenMode(c, s, a);
    TotalPut(s.workers, OpenTests, a.w, s.workers[a.w].(mode := NextMode(c, s, a)));
  }

  lemma ClosesFeed(c: Setup, s: State, w: nat)
    requires Wf(c, s) && Shape(c, s) && Ready(c, s, FeedTo(w))
    ensures Closes(c, s, MainStep(c, s, FeedTo(w)))
  {
    TotalPut(s.workers, OpenTests, w, s.workers[w].(mode := Body(s.main.next, s.now)));
  }

  lemma ClosesBegin(c: Setup, s: State)
    requires Wf(c, s) && s.main.Begin?
    ensures Closes(c, s, MainStep(c, s, BeginPhase))
  {
    TotalGrow(s.workers, OpenTests, Width(c, s.main.pool), s.main.pool);
  }

  lemma ClosesMain(c: Setup, s: State, a: Action)
    requires Wf(c, s) && OfMain(a) && Ready(c, s, a) && !a.FeedTo? && !a.BeginPhase?
    ensures Closes(c, s, MainStep(c, s, a))
  {
  }

  lemma OutstandingStep(c: Setup, s: State, a: Action)
    requires Wf(c, s) && Shape(c, s) && Enabled(c, s, a)
    ensures Closes(c, s, Apply(c, s, a))
  {
    if OfWorker(a) {
      ClosesWorker(c, s, a);
    } else if a.FeedTo? {
      ClosesFeed(c, s, a.w);
    } else if a.BeginPhase? {
      ClosesBegin(c, s);
    } else if OfMain(a) {
      ClosesMain(c, s, a);
    } else {
      OutsideFrame(c, s, a);
    }
  }

  /** Each test buys the run at most one backstop of time. */
  ghost predicate Credited(c: Setup, s: State) {
    c.runner.stallTimeout > 0 ==>
      && (!s.main.Returned? ==> Outstanding(c, s) <= |c.tests|
                                && s.board.progress <= (|c.tests| - Outstanding(c, s)) * Backstop(c))
      && (s.main.Returned? ==> s.main.at <= (|c.tests| + 1) * Backstop(c))
  }

  lemma CreditedStep(c: Setup, s: State, a: Action)
    requires Wf(c, s) && Shape(c, s) && Mutex(s) && Watched(c, s) && Credited(c, s) && Enabled(c, s, a)
    ensures Credited(c, Apply(c, s, a))
  {
    if c.runner.stallTimeout > 0 && !s.main.Returned? {
      OutstandingStep(c, s, a);
      var t := Apply(c, s, a);
      var n, b := |c.tests|, Backstop(c);
      MoreCredit(n - Outstanding(c, s), n - Outstanding(c, t), b);
      MoreCredit(n - Outstanding(c, s), n, b);
    } else if !OfMain(a) && !OfWorker(a) {
      OutsideFrame(c, s, a);
    }
  }

  lemma MoreCredit(j: nat, k: nat, b: nat)
    requires j <= k
    ensures j * b <= k * b && j * b + b == (j + 1) * b
    ensures j < k ==> j * b + b <= k * b
  {
    var d := k - j;
    assert k * b == j * b + d * b;
    if d > 0 {
      assert d * b == (d - 1) * b + b;
    }
  }

  // ----- Per-test bounds -----

  ghost predicate Bounded(c: Setup) {
    c.runner.timeout > 0 && c.runner.cleanupTimeout > 0
  }

  /** The longest one test can hold a worker. */
  function TestBound(c: Setup): nat
    requires c.runner.timeout > 0 && c.runner.cleanupTimeout > 0
  {
    c.runner.timeout + Grace(c.runner) + c.runner.cleanupTimeout
  }

  /** A worker is never later with its test than the two deadlines allow. */
  ghost predicate InTime(c: Setup, m: Mode, now: nat)
    requires Bounded(c)
  {
    var bodyBound := c.runner.timeout + Grace(c.runner);
    && (m.Busy() ==> m.start <= now <= m.start + TestBound(c))
    && (m.Body? ==> now <= m.start + bodyBound)
    && (m.Cleaning? ==> m.since <= m.start + bodyBound && now <= m.since + c.runner.cleanupTimeout)
  }

  ghost predicate Timed(c: Setup, s: State) {
    Bounded(c) ==> forall w :: 0 <= w < |s.workers| ==> InTime(c, s.workers[w].mode, s.now)
  }

  lemma TimedMode(c: Setup, s: State, a: Action)
    requires Wf(c, s) && OfWorker(a) && Ready(c, s, a) && Bounded(c) && InTime(c, s.workers[a.w].mode, s.now)
    ensures InTime(c, NextMode(c, s, a), s.now)
  {
  }

  lemma TimedMain(c: Setup, s: State, a: Action)
    requires Wf(c, s) && Timed(c, s) && OfMain(a) && Ready(c, s, a) && Bounded(c)
    ensures Timed(c, MainStep(c, s, a))
  {
    var t := MainStep(c, s, a);
    forall v | 0 <= v < |t.workers| ensures InTime(c, t.workers[v].mode, s.now) {
      assert (v < |s.workers| && t.workers[v] == s.workers[v]) || t.workers[v].mode == Idle
             || t.workers[v].mode == Body(s.main.next, s.now);
    }
  }

  lemma TimedDelay(c: Setup, s: State)
    requires Wf(c, s) && Mutex(s) && Timed(c, s) && Quiet(c, s) && Bounded(c)
    ensures Timed(c, Apply(c, s, Delay))
  {
    QuietWorkers(c, s);
  }

  lemma TimedStep(c: Setup, s: State, a: Action)
    requires Wf(c, s) && Mutex(s) && Timed(c, s) && Enabled(c, s, a)
    ensures Timed(c, Apply(c, s, a))
  {
    if Bounded(c) {
      if a.Delay? {
        TimedDelay(c, s);
      } else if OfWorker(a) {
        TimedMode(c, s, a);
      } else if OfMain(a) {
        TimedMain(c, s, a);
      } else {
        OutsideFrame(c, s, a);
      }
    }
  }

  // ----- No false alarm -----

  predicate Since(m: Mode, when: nat) {
    m.Busy() && OpenTests(m) == 1 && m.start <= when
  }

  /** Until the watchdog is off, either a test has just been stamped or one
      that was already running then still is. */
  ghost predicate Lively(c: Setup, s: State) {
    !s.main.Returned? || s.watcher.Armed? ==>
      s.now == s.board.progress || exists w :: 0 <= w < |s.workers| && Since(s.workers[w].mode, s.board.progress)
  }

  lemma LivelyDelay(c: Setup, s: State)
    requires Wf(c, s) && Shape(c, s) && Mutex(s) && Watched(c, s) && Lively(c, s) && Bounded(c) && Timed(c, s)
    requires Quiet(c, s)
    ensures Lively(c, Apply(c, s, Delay))
  {
    assert !Ready(c, s, WatchStop);
    if !s.main.Returned? && s.now == s.board.progress {
      var w := QuietMain(c, s);
      assert InTime(c, s.workers[w].mode, s.now);
      assert Since(s.workers[w].mode, s.board.progress);
    }
  }

  lemma LivelyStep(c: Setup, s: State, a: Action)
    requires Wf(c, s) && Shape(c, s) && Mutex(s) && Watched(c, s) && Lively(c, s) && Bounded(c) && Timed(c, s)
    requires Enabled(c, s, a)
    ensures Lively(c, Apply(c, s, a))
  {
    var t := Apply(c, s, a);
    if a.Delay? {
      LivelyDelay(c, s);
    } else if !(a.Report? && s.workers[a.w].mode.step == Store) && (!s.main.Returned? || s.watcher.Armed?) {
      if s.now != s.board.progress {
        var w :| 0 <= w < |s.workers| && Since(s.workers[w].mode, s.board.progress);
        SinceStays(c, s, a, w);
      } else if !OfMain(a) && !OfWorker(a) {
        OutsideFrame(c, s, a);
      }
    }
  }

  /** A running test keeps running until it is stamped. */
  lemma SinceStays(c: Setup, s: State, a: Action, w: nat)
    requires Wf(c, s) && Enabled(c, s, a) && w < |s.workers|
    requires Since(s.workers[w].mode, s.board.progress) && !(a.Report? && s.workers[a.w].mode.step == Store)
    ensures var t := Apply(c, s, a);
            w < |t.workers| && t.board.progress == s.board.progress && Since(t.workers[w].mode, s.board.progress)
  {
    if !OfMain(a) && !OfWorker(a) {
      OutsideFrame(c, s, a);
    }
  }

  // ----- Makespan -----

  /** When the k-th entry of a queue worked by `w` workers has to have started:
      one test bound later for every full round before it. */
  function Slot(k: nat, w: nat, d: nat): nat
    requires w > 0
    decreases k
  {
    if k < w then 0 else Slot(k - w, w, d) + d
  }

  lemma {:induction false} SlotMono(j: nat, k: nat, w: nat, d: nat)
    requires w > 0 && j <= k
    ensures Slot(j, w, d) <= Slot(k, w, d)
    decreases k
  {
    if j >= w {
      SlotMono(j - w, k - w, w, d);
    }
  }

  lemma FarFromZero(e: int, w: nat)
    requires w > 0
    ensures e >= 1 ==> e * w >= w
    ensures e <= -1 ==> e * w + w <= 0
  {
    if e >= 1 {
      assert e * w == (e - 1) * w + w && (e - 1) * w >= 0;
    } else if e <= -1 {
      assert e * w == (e + 1) * w - w && -(e + 1) * w >= 0;
    }
  }

  lemma QuotientIs(k: nat, w: nat, q: nat, r: nat)
    requires w > 0 && k == q * w + r && r < w
    ensures k / w == q
  {
    var e := q - k / w;
    assert k == w * (k / w) + k % w;
    assert e * w == q * w - (k / w) * w;
    FarFromZero(e, w);
  }

  lemma OneRoundLess(k: nat, w: nat)
    requires 0 < w <= k
    ensures (k - w) / w + 1 == k / w
  {
    var q := (k - w) / w;
    assert (q + 1) * w == q * w + w;
    QuotientIs(k, w, q + 1, (k - w) % w);
  }

  /** `Slot` is floor(k / w) test bounds. */
  lemma {:induction false} SlotIsFloor(k: nat, w: nat, d: nat)
    requires w > 0
    ensures Slot(k, w, d) == k / w * d
    decreases k
  {
    if k >= w {
      SlotIsFloor(k - w, w, d);
      OneRoundLess(k, w);
      MoreCredit((k - w) / w, k / w, d);
    } else {
      assert k / w == 0;
    }
  }

  /** How long a phase may take: ceil(n / w) times the bound for one test. */
  function Span(c: Setup, pool: bool): nat
    requires c.runner.timeout > 0 && c.runner.cleanupTimeout > 0
  {
    var n := |c.Entries(pool)|;
    if n == 0 then 0 else Slot(n - 1, Width(c, pool), TestBound(c)) + TestBound(c)
  }

  lemma DistinctSize(ps: seq<nat>, s: set<nat>)
    requires forall i, j :: 0 <= i < j < |ps| ==> ps[i] != ps[j]
    requires s == set i | 0 <= i < |ps| :: ps[i]
    ensures |s| == |ps|
  {
    if ps != [] {
      var n := |ps| - 1;
      var r := set i | 0 <= i < n :: ps[i];
      assert r == set i | 0 <= i < |ps[..n]| :: ps[..n][i];
      DistinctSize(ps[..n], r);
      assert s == r + {ps[n]};
    }
  }

  /** Of `|ps|` distinct numbers below k, one is at most k - |ps|. */
  lemma LowOne(ps: seq<nat>, k: nat) returns (i: nat)
    requires ps != []
    requires forall i, j :: 0 <= i < j < |ps| ==> ps[i] != ps[j]
    requires forall i :: 0 <= i < |ps| ==> ps[i] < k
    ensures i < |ps| && ps[i] + |ps| <= k
  {
    var n := |ps|;
    var s := set i | 0 <= i < n :: ps[i];
    DistinctSize(ps, s);
    if forall i :: 0 <= i < n ==> ps[i] + n > k {
      var lo := if k < n then 0 else k - n + 1;
      RangeSize(s, lo, k - lo);
      assert false;
    } else {
      i :| 0 <= i < n && ps[i] + n <= k;
    }
  }

  function PosOf(m: Mode): nat {
    if m.Busy() then m.pos else 0
  }

  lemma LowestOf(ws: seq<Worker>, k: nat) returns (i: nat)
    requires ws != []
    requires forall j :: 0 <= j < |ws| ==> ws[j].mode.Busy() && PosOf(ws[j].mode) < k
    requires forall j, l :: 0 <= j < l < |ws| ==> PosOf(ws[j].mode) != PosOf(ws[l].mode)
    ensures i < |ws| && ws[i].mode.Busy() && ws[i].mode.pos + |ws| <= k
  {
    var ps := seq(|ws|, j requires 0 <= j < |ws| => PosOf(ws[j].mode));
    i := LowOne(ps, k);
  }

  /** The `n` workers from `lo` are the crew of a phase, all in the middle of a test. */
  ghost predicate CrewBusy(s: State, lo: nat, n: nat, p: bool) {
    && lo + n <= |s.workers|
    && (forall w :: lo <= w < lo + n ==> s.workers[w].pool == p && s.workers[w].mode.InRunOne())
  }

  /** While the clock moves during feeding, the whole crew of the phase is busy. */
  lemma FeedingCrew(c: Setup, s: State) returns (lo: nat, n: nat)
    requires Wf(c, s) && Shape(c, s) && Mutex(s) && Quiet(c, s) && s.main.Feed?
    ensures n == Width(c, s.main.pool) > 0 && CrewBusy(s, lo, n, s.main.pool)
  {
    var _ := QuietMain(c, s);
    lo, n := if s.main.pool then Width(c, false) else 0, Width(c, s.main.pool);
  }

  /** When a whole crew is busy, the longest-waiting worker has an entry at
      least a full round behind the next to be handed out. */
  lemma CrewLowest(c: Setup, s: State, lo: nat, n: nat, p: bool, k: nat) returns (v: nat)
    requires Wf(c, s) && Taken(c, s) && n > 0 && CrewBusy(s, lo, n, p) && Handed(c, s.main, p) == k
    ensures v < |s.workers| && s.workers[v].mode.InRunOne() && s.workers[v].pool == p
    ensures s.workers[v].mode.pos + n <= k
  {
    var crew := s.workers[lo..lo + n];
    forall j | 0 <= j < n ensures crew[j].mode.Busy() && PosOf(crew[j].mode) < k && crew[j].pool == p {
      var w := lo + j;
      assert crew[j] == s.workers[w] && s.workers[w].pool == p && s.workers[w].mode.InRunOne();
    }
    forall j, l | 0 <= j < l < n ensures PosOf(crew[j].mode) != PosOf(crew[l].mode) {
      assert crew[j] == s.workers[lo + j] && crew[l] == s.workers[lo + l];
      assert Apart(s.workers[lo + j], s.workers[lo + l]);
    }
    var i := LowestOf(crew, k);
    v := lo + i;
    assert crew[i] == s.workers[v];
  }

  function Base(c: Setup, pool: bool): nat
    requires c.runner.timeout > 0 && c.runner.cleanupTimeout > 0
  {
    if pool then Span(c, false) else 0
  }

  /** Tests of the current phase have started on schedule, and so has the phase. */
  ghost predicate Paced(c: Setup, s: State)
    requires Bounded(c)
  {
    var d := TestBound(c);
    && (!s.main.Returned? && !s.main.Begin? ==>
          && s.began <= Base(c, s.main.pool)
          && (forall w :: 0 <= w < |s.workers| && s.workers[w].pool == s.main.pool && s.workers[w].mode.Busy() ==>
                Width(c, s.main.pool) > 0 && OnSchedule(s.workers[w].mode, s.began, Width(c, s.main.pool), d)))
    && match s.main
       case Begin(p) => s.now <= Base(c, p)
       case Feed(p, k) =>
         var n, w := |c.Entries(p)|, Width(c, p);
         n > 0 && w > 0 && s.now <= s.began + Slot(if k < n then k else n - 1, w, d)
       case Wait(p) => s.now <= s.began + Span(c, p)
       case After(p) => s.now <= Base(c, p) + Span(c, p)
       case Returned(at, _, _, _, _, _, _, _) => at <= Span(c, false) + Span(c, true)
  }

  predicate OnSchedule(m: Mode, began: nat, w: nat, d: nat)
    requires w > 0 && m.Busy()
  {
    m.start <= began + Slot(m.pos, w, d)
  }

  lemma FeedingLowest(c: Setup, s: State) returns (w: nat)
    requires Wf(c, s) && Shape(c, s) && Taken(c, s) && Mutex(s) && Quiet(c, s) && s.main.Feed?
    ensures w < |s.workers| && s.workers[w].pool == s.main.pool && s.workers[w].mode.InRunOne()
    ensures 0 < Width(c, s.main.pool) && s.workers[w].mode.pos + Width(c, s.main.pool) <= s.main.next
  {
    var lo, n := FeedingCrew(c, s);
    w := CrewLowest(c, s, lo, n, s.main.pool, s.main.next);
  }

  /** While the clock moves, a test of the current phase is inside its slot. */
  lemma InSlot(c: Setup, s: State, w: nat)
    requires Bounded(c) && Wf(c, s) && Mutex(s) && Timed(c, s) && Paced(c, s) && Quiet(c, s)
    requires !s.main.Returned? && !s.main.Begin?
    requires w < |s.workers| && s.workers[w].pool == s.main.pool && s.workers[w].mode.InRunOne()
    ensures Width(c, s.main.pool) > 0 && s.workers[w].mode.pos < |c.Entries(s.main.pool)|
    ensures s.now < s.began + Slot(s.workers[w].mode.pos, Width(c, s.main.pool), TestBound(c)) + TestBound(c)
  {
    QuietWorkers(c, s);
    assert InTime(c, s.workers[w].mode, s.now);
    assert PosOk(c, s.workers[w]);
    assert OnSchedule(s.workers[w].mode, s.began, Width(c, s.main.pool), TestBound(c));
  }

  lemma PacedFeeding(c: Setup, s: State)
    requires Bounded(c) && Wf(c, s) && Shape(c, s) && Taken(c, s) && Mutex(s) && Timed(c, s) && Paced(c, s)
    requires Quiet(c, s) && s.main.Feed?
    ensures Paced(c, Apply(c, s, Delay))
  {
    var next, width, d := s.main.next, Width(c, s.main.pool), TestBound(c);
    assert next < |c.Entries(s.main.pool)| by {
      var _ := QuietMain(c, s);
    }
    var w := FeedingLowest(c, s);
    InSlot(c, s, w);
    var pos := s.workers[w].mode.pos;
    SlotMono(pos, next - width, width, d);
    PacedLater(c, s, Apply(c, s, Delay));
  }

  lemma PacedWaiting(c: Setup, s: State)
    requires Bounded(c) && Wf(c, s) && Shape(c, s) && Mutex(s) && Timed(c, s) && Paced(c, s)
    requires Quiet(c, s) && s.main.Wait?
    ensures Paced(c, Apply(c, s, Delay))
  {
    var p, d := s.main.pool, TestBound(c);
    var w := QuietMain(c, s);
    InSlot(c, s, w);
    SlotMono(s.workers[w].mode.pos, |c.Entries(p)| - 1, Width(c, p), d);
    PacedLater(c, s, Apply(c, s, Delay));
  }

  /** One tick later, if the limit of the current stage allows it. */
  lemma PacedLater(c: Setup, s: State, t: State)
    requires Bounded(c) && Paced(c, s) && t == s.(now := s.now + 1) && (s.main.Feed? || s.main.Wait?)
    requires s.main.Feed? ==>
               s.main.next < |c.Entries(s.main.pool)|
               && s.now < s.began + Slot(s.main.next, Width(c, s.main.pool), TestBound(c))
    requires s.main.Wait? ==> s.now < s.began + Span(c, s.main.pool)
    ensures Paced(c, t)
  {
  }

  lemma PacedDelay(c: Setup, s: State)
    requires Bounded(c) && Wf(c, s) && Shape(c, s) && Taken(c, s) && Mutex(s) && Timed(c, s) && Paced(c, s)
    requires Quiet(c, s)
    ensures Paced(c, Apply(c, s, Delay))
  {
    if !s.main.Returned? {
      var _ := QuietMain(c, s);
      if s.main.Feed? {
        PacedFeeding(c, s);
      } else {
        PacedWaiting(c, s);
      }
    }
  }

  lemma PacedFeed(c: Setup, s: State, w: nat)
    requires Bounded(c) && Wf(c, s) && Shape(c, s) && Paced(c, s) && Ready(c, s, FeedTo(w))
    ensures Paced(c, MainStep(c, s, FeedTo(w)))
  {
    var n, k, width := |c.Entries(s.main.pool)|, s.main.next, Width(c, s.main.pool);
    SlotMono(k, if k + 1 < n then k + 1 else n - 1, width, TestBound(c));
    assert OnSchedule(Body(k, s.now), s.began, width, TestBound(c));
  }

  lemma PacedMain(c: Setup, s: State, a: Action)
    requires Bounded(c) && Wf(c, s) && Shape(c, s) && Paced(c, s) && OfMain(a) && Ready(c, s, a)
    requires !a.FeedTo? && !a.BeginPhase?
    ensures Paced(c, MainStep(c, s, a))
  {
    if a.FeedStop? {
      var p := s.main.pool;
      SlotMono(s.main.next, |c.Entries(p)| - 1, Width(c, p), TestBound(c));
    }
  }

  lemma PacedBegin(c: Setup, s: State)
    requires Bounded(c) && Wf(c, s) && Shape(c, s) && Paced(c, s) && s.main.Begin?
    ensures Paced(c, MainStep(c, s, BeginPhase))
  {
    var t := MainStep(c, s, BeginPhase);
    forall v | 0 <= v < |t.workers| && t.workers[v].pool == s.main.pool ensures !t.workers[v].mode.Busy() {
    }
  }

  lemma PacedWorker(c: Setup, s: State, a: Action)
    requires Bounded(c) && Wf(c, s) && Paced(c, s) && OfWorker(a) && Ready(c, s, a)
    ensures Paced(c, WorkerStep(c, s, a))
  {
    var t := WorkerStep(c, s, a);
    forall v | 0 <= v < |t.workers| && t.workers[v].mode.Busy()
      ensures && t.workers[v].pool == s.workers[v].pool && s.workers[v].mode.Busy()
              && t.workers[v].mode.pos == s.workers[v].mode.pos && t.workers[v].mode.start == s.workers[v].mode.start
    {
    }
  }

  lemma PacedOutside(c: Setup, s: State, a: Action)
    requires Bounded(c) && Wf(c, s) && Paced(c, s) && Enabled(c, s, a) && !OfMain(a) && !OfWorker(a) && !a.Delay?
    ensures Paced(c, Apply(c, s, a))
  {
    var t := Apply(c, s, a);
    OutsideFrame(c, s, a);
    assert t.now == s.now;
  }

  lemma PacedOfMain(c: Setup, s: State, a: Action)
    requires Bounded(c) && Wf(c, s) && Shape(c, s) && Paced(c, s) && OfMain(a) && Ready(c, s, a)
    ensures Paced(c, MainStep(c, s, a))
  {
    if a.FeedTo? {
      PacedFeed(c, s, a.w);
    } else if a.BeginPhase? {
      PacedBegin(c, s);
    } else {
      PacedMain(c, s, a);
    }
  }

  lemma PacedStep(c: Setup, s: State, a: Action)
    requires Bounded(c) && Wf(c, s) && Shape(c, s) && Taken(c, s) && Mutex(s) && Timed(c, s) && Paced(c, s)
    requires Enabled(c, s, a)
    ensures Paced(c, Apply(c, s, a))
  {
    if a.Delay? {
      PacedDelay(c, s);
    } else if OfWorker(a) {
      PacedWorker(c, s, a);
    } else if OfMain(a) {
      PacedOfMain(c, s, a);
    } else {
      PacedOutside(c, s, a);
    }
  }
}
