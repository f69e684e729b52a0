/** The run as a transition system: the feeding goroutine, the workers, the
    mutex, the stall watchdog, outside cancellation, and discrete time. */
module Protocol {
  import opened Tests
  import opened Scheduler

  const SECOND: nat := 1_000_000_000
  const DEFAULT_GRACE: nat := 5 * SECOND
  const WATCH_CAP: nat := 30 * SECOND

  /** One call of `Run`: the tests and the two queues they were partitioned into. */
  datatype Setup = Setup(runner: Runner, tests: seq<Test>, serial: seq<nat>, parallel: seq<nat>) {
    function Entries(pool: bool): seq<nat> {
      if pool then parallel else serial
    }
  }

  /** Every queue entry is a test of the right kind. */
  ghost predicate Entry(c: Setup, p: bool, j: int) {
    0 <= j < |c.Entries(p)| ==> c.Entries(p)[j] < |c.tests| && IsSerial(c.tests[c.Entries(p)[j]]) != p
  }

  ghost predicate InQueue(c: Setup, i: nat)
    requires i < |c.tests|
  {
    i in c.Entries(!IsSerial(c.tests[i]))
  }

  ghost predicate Before(c: Setup, p: bool, j: nat, k: nat) {
    j < k < |c.Entries(p)| ==> c.Entries(p)[j] < c.Entries(p)[k]
  }

  /** What `Plan` gives, and all the protocol needs to know about the queues. */
  ghost predicate Planned(c: Setup) {
    && (forall p, j :: 0 <= j < |c.Entries(p)| ==> c.Entries(p)[j] < |c.tests|)
    && (forall p, j :: Entry(c, p, j))
    && (forall p, j: nat, k: nat :: Before(c, p, j, k))
    && (forall i :: 0 <= i < |c.tests| ==> InQueue(c, i))
    && |c.serial| + |c.parallel| == |c.tests|
  }

  function Plan(r: Runner, tests: seq<Test>): (c: Setup)
    ensures Planned(c)
  {
    QueueFacts(tests, false);
    QueueFacts(tests, true);
    QueuesCover(tests);
    Setup(r, tests, Queue(tests, false), Queue(tests, true))
  }

  function Grace(r: Runner): nat {
    if r.watchdogGrace > 0 then r.watchdogGrace else DEFAULT_GRACE
  }

  /** How often the stall watchdog looks. */
  function Interval(r: Runner): nat
    requires r.stallTimeout > 0
  {
    if WATCH_CAP < r.stallTimeout then WATCH_CAP else r.stallTimeout
  }

  /** Workers started for a phase; none when it has no work. */
  function Width(c: Setup, pool: bool): nat {
    var n := |c.Entries(pool)|;
    var asked := if pool then c.runner.parallel else 1;
    var atLeastOne := if asked < 1 then 1 else asked;
    if atLeastOne > n then n else atLeastOne
  }

  /** The steps of `finish`, in order. A test that timed out is counted, and the
      count the worker got is compared with the limit afterwards. `Lock` waits
      for the mutex, and the mutex is held from `Write` to `Observe`. */
  datatype Step = Store | Leak | Judge(count: nat) | Lock | Write | Mark | Observe

  /** Where a worker is. `pos` is the place of its test in the phase queue. */
  datatype Mode =
    | Idle
    | Body(pos: nat, start: nat)
    | Cleaning(pos: nat, start: nat, since: nat, status: Status, abandoned: bool)
    | Reporting(pos: nat, start: nat, verdict: Status, step: Step)
    | Exited
  {
    /** Inside `runOne` or `finish`. */
    predicate Busy() {
      Body? || Cleaning? || Reporting?
    }

    /** Inside `runOne`. */
    predicate InRunOne() {
      Body? || Cleaning?
    }

    /** Having counted a test, and not compared the count yet. */
    predicate Judging() {
      Reporting? && step.Judge?
    }

    /** Holding the mutex. */
    predicate Holding() {
      Reporting? && (step == Write || step == Mark || step == Observe)
    }
  }

  datatype Worker = Worker(pool: bool, mode: Mode)

  /** The counts that workers have been given and not compared with the limit yet. */
  function Unjudged(ws: seq<Worker>): set<nat> {
    set w | 0 <= w < |ws| && ws[w].mode.Judging() :: ws[w].mode.step.count
  }

  /** Where the goroutine that called `Run` is. Of what `Returned` holds, only
      `out` and `err` are handed back; the rest is history of that moment. */
  datatype Main =
    | Begin(pool: bool)
    | Feed(pool: bool, next: nat)
    | Wait(pool: bool)
    | After(pool: bool)
    | Returned(at: nat, last: nat, out: seq<Result>, err: Option<Breakdown>, cut: bool, alarmed: bool, leaked: nat,
               unjudged: set<nat>)

  datatype Watcher = Off | Armed(next: nat)

  /** `began`, `alarm` and `observed` are history: when the current phase began,
      whether the watchdog ever fired, and what `Observe` was called with. */
  datatype State = State(now: nat, cancelled: bool, main: Main, workers: seq<Worker>,
                         lock: Option<nat>, watcher: Watcher, board: Board,
                         began: nat, alarm: bool, observed: seq<(nat, Result)>)
  {
    function Put(w: nat, m: Mode): State
      requires w < |workers|
    {
      this.(workers := workers[w := workers[w].(mode := m)])
    }
  }

  datatype Action =
    | BeginPhase | FeedTo(w: nat) | FeedStop | CloseQueue | WaitDone | WaitStop | Advance | Return
    | WorkerExit(w: nat) | BodyEnds(w: nat, status: Status) | Abandon(w: nat)
    | CleanupEnds(w: nat, marked: bool) | CleanupExpires(w: nat) | Report(w: nat)
    | WatchTick | WatchStop | Cancel | Delay

  function Init(c: Setup): State {
    State(0, false, Begin(false), [], None,
          if c.runner.stallTimeout > 0 then Armed(Interval(c.runner)) else Off,
          NewBoard(|c.tests|, 0), 0, false, [])
  }

  /** Whether the queue a worker of the given phase reads from has been closed. */
  predicate Closed(m: Main, pool: bool) {
    match m
    case Begin(q) => q && !pool
    case Feed(q, _) => q && !pool
    case Wait(q) => q || !pool
    case After(q) => q || !pool
    case Returned(_, _, _, _, _, _, _, _) => true
  }

  predicate PhaseExited(s: State, pool: bool) {
    forall w :: 0 <= w < |s.workers| && s.workers[w].pool == pool ==> s.workers[w].mode.Exited?
  }

  /** Whether a step other than the passing of time can be taken. */
  predicate Ready(c: Setup, s: State, a: Action) {
    match a
    case BeginPhase => s.main.Begin?
    case FeedTo(w) =>
      && s.main.Feed? && s.main.next < |c.Entries(s.main.pool)|
      && w < |s.workers| && s.workers[w] == Worker(s.main.pool, Idle)
    case FeedStop => s.main.Feed? && s.main.next < |c.Entries(s.main.pool)| && s.cancelled
    case CloseQueue => s.main.Feed? && s.main.next >= |c.Entries(s.main.pool)|
    case WaitDone => s.main.Wait? && PhaseExited(s, s.main.pool)
    case WaitStop => s.main.Wait? && s.cancelled
    case Advance => s.main == After(false) && !s.cancelled
    case Return => s.main.After? && (s.main.pool || s.cancelled) && s.lock.None?
    case WorkerExit(w) =>
      w < |s.workers| && s.workers[w].mode.Idle? && Closed(s.main, s.workers[w].pool)
    case BodyEnds(w, status) =>
      && w < |s.workers| && s.workers[w].mode.Body?
      && (status == Passed || status == Failed || status == Skipped)
    case Abandon(w) =>
      && w < |s.workers| && s.workers[w].mode.Body? && c.runner.timeout > 0
      && s.now >= s.workers[w].mode.start + c.runner.timeout + Grace(c.runner)
    case CleanupEnds(w, _) => w < |s.workers| && s.workers[w].mode.Cleaning?
    case CleanupExpires(w) =>
      && w < |s.workers| && s.workers[w].mode.Cleaning? && c.runner.cleanupTimeout > 0
      && s.now >= s.workers[w].mode.since + c.runner.cleanupTimeout
    case Report(w) =>
      && w < |s.workers| && s.workers[w].mode.Reporting?
      && (s.workers[w].mode.step == Lock ==> s.lock.None?)
    case WatchTick => s.watcher.Armed? && s.now >= s.watcher.next
    case WatchStop => s.watcher.Armed? && (s.cancelled || s.main.Returned?)
    case Cancel => !s.cancelled
    case Delay => false
  }

  predicate OfMain(a: Action) {
    || a.BeginPhase? || a.FeedTo? || a.FeedStop? || a.CloseQueue?
    || a.WaitDone? || a.WaitStop? || a.Advance? || a.Return?
  }

  predicate OfWorker(a: Action) {
    || a.WorkerExit? || a.BodyEnds? || a.Abandon?
    || a.CleanupEnds? || a.CleanupExpires? || a.Report?
  }

  /** Steps the harness takes by itself. Bodies and cleanups end, and the caller
      cancels, whenever they like. */
  predicate Urgent(a: Action) {
    !(a.BodyEnds? || a.CleanupEnds? || a.Cancel? || a.Delay?)
  }

  ghost predicate Quiet(c: Setup, s: State) {
    forall a: Action :: Urgent(a) ==> !Ready(c, s, a)
  }

  /** Scheduler steps take no time: the clock moves only when none is possible. */
  ghost predicate Enabled(c: Setup, s: State, a: Action) {
    if a.Delay? then Quiet(c, s) else Ready(c, s, a)
  }

  /** What makes every index below defined. */
  ghost predicate Wf(c: Setup, s: State) {
    && Planned(c)
    && |s.board.results| == |s.board.done| == |c.tests|
    && (forall w :: 0 <= w < |s.workers| ==> PosOk(c, s.workers[w]))
  }

  predicate PosOk(c: Setup, x: Worker) {
    x.mode.Busy() ==> x.mode.pos < |c.Entries(x.pool)|
  }

  /** The input index of the test a busy worker carries. */
  function Index(c: Setup, x: Worker): nat
    requires x.mode.Busy() && x.mode.pos < |c.Entries(x.pool)|
  {
    c.Entries(x.pool)[x.mode.pos]
  }

  /** Whether a test started at `start` finds its context done. */
  predicate ContextDone(c: Setup, s: State, start: nat) {
    s.cancelled || (c.runner.timeout > 0 && s.now >= start + c.runner.timeout)
  }

  /** The stages a worker goes through with one test, in order. */
  function Stage(m: Mode): nat {
    match m
    case Idle => 0
    case Body(_, _) => 1
    case Cleaning(_, _, _, _, _) => 2
    case Reporting(_, _, _, step) =>
      (match step case Store => 3 case Leak => 4 case Judge(_) => 5 case Lock => 6
                  case Write => 7 case Mark => 8 case Observe => 9)
    case Exited => 10
  }

  /** How a worker's mode changes: from one stage to the next, the comparison of
      counts left out for a test that did not time out, and back to idle when the
      test is reported, keeping the test, its start and its verdict. A test times
      out when it was abandoned or ended Failed with its context done; otherwise
      its body's own end is the verdict, unless a marked cleanup overrides it. */
  function NextMode(c: Setup, s: State, a: Action): (m: Mode)
    requires OfWorker(a) && Ready(c, s, a)
    ensures var was := s.workers[a.w].mode;
            && Stage(m) == (if was.Idle? then 10
                            else if was.Reporting? && was.step == Leak && was.verdict != TimedOut then 6
                            else (Stage(was) + 1) % 10)
            && (m.Judging() ==> m.verdict == TimedOut || was.Judging())
            && (m.Busy() ==> was.Busy() && m.pos == was.pos && m.start == was.start)
            && (m.Cleaning? ==> m.since == s.now && m.abandoned == a.Abandon?)
            && (a.BodyEnds? ==> m.Cleaning? && m.status == a.status)
            && (m.Reporting? && was.Reporting? ==> m.verdict == was.verdict)
            && (m.Reporting? && was.Cleaning? ==>
                  && (m.verdict == TimedOut <==>
                        || was.abandoned || was.status == TimedOut
                        || (was.status == Failed && ContextDone(c, s, was.start)))
                  && (m.verdict == Skipped <==> was.status == Skipped && !was.abandoned)
                  && (m.verdict == Passed <==>
                        was.status == Passed && !was.abandoned && a.CleanupEnds? && !a.marked))
  {
    var m := s.workers[a.w].mode;
    match a
    case WorkerExit(_) => Exited
    case BodyEnds(_, status) => Cleaning(m.pos, m.start, s.now, status, false)
    case Abandon(_) => Cleaning(m.pos, m.start, s.now, TimedOut, true)
    case CleanupEnds(_, marked) =>
      Reporting(m.pos, m.start, Verdict(m.abandoned, m.status, ContextDone(c, s, m.start), marked), Store)
    case CleanupExpires(_) =>
      Reporting(m.pos, m.start, Verdict(m.abandoned, m.status, ContextDone(c, s, m.start), true), Store)
    case Report(_) =>
      match m.step
      case Store => m.(step := Leak)
      case Leak => if m.verdict == TimedOut then m.(step := Judge(s.board.leaked + 1)) else m.(step := Lock)
      case Judge(_) => m.(step := Lock)
      case Lock => m.(step := Write)
      case Write => m.(step := Mark)
      case Mark => m.(step := Observe)
      case Observe => Idle
  }

  /** The result a reporting worker carries. */
  function Carried(c: Setup, x: Worker): Result
    requires x.mode.Reporting? && PosOk(c, x) && Index(c, x) < |c.tests|
  {
    Result(c.tests[Index(c, x)], x.mode.verdict)
  }

  ghost function NextBoard(c: Setup, s: State, a: Action): (b: Board)
    requires Wf(c, s) && OfWorker(a) && Ready(c, s, a)
    ensures |b.results| == |s.board.results| && |b.done| == |s.board.done|
  {
    if !a.Report? then s.board
    else
      var x := s.workers[a.w];
      match x.mode.step
      case Store => s.board.Stamp(s.now)
      case Leak => if x.mode.verdict == TimedOut then s.board.Bump() else s.board
      case Judge(n) => s.board.Judge(c.runner.maxLeaked, n)
      case Lock => s.board
      case Write => s.board.Write(Index(c, x), Carried(c, x))
      case Mark => s.board.Mark(Index(c, x))
      case Observe => s.board
  }

  function NextLock(c: Setup, s: State, a: Action): Option<nat>
    requires OfWorker(a) && Ready(c, s, a)
  {
    if a.Report? && s.workers[a.w].mode.step == Lock then Some(a.w)
    else if a.Report? && s.workers[a.w].mode.step == Observe then None
    else s.lock
  }

  ghost function NextObserved(c: Setup, s: State, a: Action): seq<(nat, Result)>
    requires Wf(c, s) && OfWorker(a) && Ready(c, s, a)
  {
    var x := s.workers[a.w];
    if a.Report? && x.mode.step == Observe then s.observed + [(Index(c, x), Carried(c, x))] else s.observed
  }

  function Watch(c: Setup, s: State): State
    requires s.watcher.Armed?
  {
    if s.now - s.board.progress < c.runner.stallTimeout && c.runner.stallTimeout > 0 then
      s.(watcher := Armed(s.watcher.next + Interval(c.runner)))
    else
      s.(watcher := Off, cancelled := true, alarm := true, board := s.board.Fail(Stalled))
  }

  /** Steps of the goroutine that called `Run`. */
  ghost function MainStep(c: Setup, s: State, a: Action): (t: State)
    requires Wf(c, s) && Ready(c, s, a)
    requires OfMain(a)
    ensures Wf(c, t)
  {
    match a
    case BeginPhase =>
      var p := s.main.pool;
      if |c.Entries(p)| == 0 then s.(main := After(p), began := s.now)
      else s.(main := Feed(p, 0), began := s.now, workers := s.workers + seq(Width(c, p), _ => Worker(p, Idle)))
    case FeedTo(w) => s.Put(w, Body(s.main.next, s.now)).(main := Feed(s.main.pool, s.main.next + 1))
    case FeedStop => s.(main := Wait(s.main.pool))
    case CloseQueue => s.(main := Wait(s.main.pool))
    case WaitDone => s.(main := After(s.main.pool))
    case WaitStop => s.(main := After(s.main.pool))
    case Advance => s.(main := Begin(true))
    case Return =>
      var out := Collected(s.board, |c.tests|);
      s.(main := Returned(s.now, s.board.progress, out, s.board.err, s.cancelled, s.alarm, s.board.leaked,
      Unjudged(s.workers)),
      cancelled := true)
  }

  /** Steps of a worker. */
  ghost function WorkerStep(c: Setup, s: State, a: Action): (t: State)
    requires Wf(c, s) && Ready(c, s, a)
    requires OfWorker(a)
    ensures Wf(c, t)
  {
    s.Put(a.w, NextMode(c, s, a)).(
    board := NextBoard(c, s, a),
    lock := NextLock(c, s, a),
    observed := NextObserved(c, s, a))
  }

  ghost function Apply(c: Setup, s: State, a: Action): (t: State)
    requires Wf(c, s) && Enabled(c, s, a)
    ensures Wf(c, t)
  {
    if OfMain(a) then MainStep(c, s, a)
    else if OfWorker(a) then WorkerStep(c, s, a)
    else if a.WatchTick? then Watch(c, s)
    else if a.WatchStop? then s.(watcher := Off)
    else if a.Cancel? then s.(cancelled := true)
    else s.(now := s.now + 1)
  }

  /** `t` is reached from `s` by the given steps. */
  ghost predicate Leads(c: Setup, s: State, acts: seq<Action>, t: State)
    requires Wf(c, s)
    decreases |acts|
  {
    if acts == [] then s == t
    else Enabled(c, s, acts[0]) && Leads(c, Apply(c, s, acts[0]), acts[1..], t)
  }

  /** `s` is reached in some run of `c`. */
  ghost predicate Reached(c: Setup, acts: seq<Action>, s: State)
    requires Planned(c)
  {
    Leads(c, Init(c), acts, s)
  }
}
