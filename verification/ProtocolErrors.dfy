/** The error `Run` returns, what the leak counter counts, and what cuts a run short. */
module ProtocolErrors {
  import opened Tests
  import opened Scheduler
  import opened Protocol
  import opened ProtocolSafety
  import opened ProtocolEnding
  import opened ProtocolAlarm

  // ----- The error -----

  predicate AtLimit(c: Setup, leaked: nat) {
    c.runner.maxLeaked > 0 && leaked >= c.runner.maxLeaked
  }

  /** A count that reaches the limit. */
  predicate Excess(c: Setup, leaked: nat, n: nat) {
    0 < c.runner.maxLeaked <= n <= leaked
  }

  /** A breakdown is on record if there was one: an alarm, or a count that
      reached the limit and was compared with it. */
  predicate Explained(c: Setup, err: Option<Breakdown>, alarm: bool, leaked: nat, unjudged: set<nat>) {
    match err
    case None => !alarm && forall n :: 0 <= n <= leaked && Excess(c, leaked, n) ==> n in unjudged
    case Some(Stalled) => alarm
    case Some(TooManyLeaked(n)) => Excess(c, leaked, n) && n !in unjudged
  }

  /** No two workers have been given the same count, and none a future one. */
  ghost predicate Judged(s: State) {
    && (forall w :: 0 <= w < |s.workers| && s.workers[w].mode.Judging() ==>
          s.workers[w].mode.verdict == TimedOut && 0 < s.workers[w].mode.step.count <= s.board.leaked)
    && (forall v, w :: 0 <= v < |s.workers| && 0 <= w < |s.workers| && v != w
                       && s.workers[v].mode.Judging() && s.workers[w].mode.Judging() ==>
          s.workers[v].mode.step.count != s.workers[w].mode.step.count)
  }

  ghost predicate Accounted(c: Setup, s: State) {
    && Judged(s)
    && Explained(c, s.board.err, s.alarm, s.board.leaked, Unjudged(s.workers))
    && (s.alarm ==> s.cancelled)
    && (s.main.Returned? ==> s.cancelled
                             && Explained(c, s.main.err, s.main.alarmed, s.main.leaked, s.main.unjudged)
                             && (s.main.alarmed ==> s.main.cut))
  }

  /** What a change of one worker's mode does to the counts not yet compared. */
  lemma UnjudgedPut(ws: seq<Worker>, w: nat, x: Worker)
    requires w < |ws|
    requires ws[w].mode.Judging() ==> forall v :: 0 <= v < |ws| && v != w && ws[v].mode.Judging() ==>
                                        ws[v].mode.step.count != ws[w].mode.step.count
    ensures Unjudged(ws[w := x])
            == (Unjudged(ws) - if ws[w].mode.Judging() then {ws[w].mode.step.count} else {})
               + if x.mode.Judging() then {x.mode.step.count} else {}
  {
    var us := ws[w := x];
    forall n ensures n in Unjudged(us) <==>
                       n in (Unjudged(ws) - if ws[w].mode.Judging() then {ws[w].mode.step.count} else {})
                            + if x.mode.Judging() then {x.mode.step.count} else {}
    {
      if v :| 0 <= v < |us| && us[v].mode.Judging() && us[v].mode.step.count == n {
        assert v != w ==> us[v] == ws[v];
      }
      if v :| 0 <= v < |ws| && ws[v].mode.Judging() && ws[v].mode.step.count == n {
        assert v != w ==> us[v] == ws[v];
      }
      if x.mode.Judging() && x.mode.step.count == n {
        assert us[w] == x;
      }
    }
  }

  lemma UnjudgedGrow(ws: seq<Worker>, n: nat, p: bool)
    ensures Unjudged(ws + seq(n, _ => Worker(p, Idle))) == Unjudged(ws)
  {
    var us := ws + seq(n, _ => Worker(p, Idle));
    forall k ensures k in Unjudged(us) <==> k in Unjudged(ws) {
      if v :| 0 <= v < |ws| && ws[v].mode.Judging() && ws[v].mode.step.count == k {
        assert us[v] == ws[v];
      }
    }
  }

  /** A new count is the highest and not compared yet. */
  lemma ExplainedBump(c: Setup, err: Option<Breakdown>, alarm: bool, leaked: nat, unjudged: set<nat>)
    requires Explained(c, err, alarm, leaked, unjudged)
    ensures Explained(c, err, alarm, leaked + 1, unjudged + {leaked + 1})
  {
    forall n | 0 <= n <= leaked + 1 && Excess(c, leaked + 1, n) ensures n == leaked + 1 || Excess(c, leaked, n) {
    }
  }

  lemma ExplainedJudge(c: Setup, b: Board, alarm: bool, unjudged: set<nat>, n: nat)
    requires Explained(c, b.err, alarm, b.leaked, unjudged) && n in unjudged && 0 < n <= b.leaked
    ensures Explained(c, b.Judge(c.runner.maxLeaked, n).err, alarm, b.leaked, unjudged - {n})
  {
  }

  lemma JudgedWorker(c: Setup, s: State, a: Action)
    requires Wf(c, s) && Judged(s) && OfWorker(a) && Ready(c, s, a)
    ensures Judged(WorkerStep(c, s, a))
  {
    var t := WorkerStep(c, s, a);
    forall v | 0 <= v < |t.workers| && v != a.w ensures t.workers[v] == s.workers[v] {
    }
  }

  lemma AccountedWorker(c: Setup, s: State, a: Action)
    requires Wf(c, s) && Accounted(c, s) && OfWorker(a) && Ready(c, s, a)
    ensures Accounted(c, WorkerStep(c, s, a))
  {
    JudgedWorker(c, s, a);
    UnjudgedNext(c, s, a);
    ExplainedWorker(c, s, a);
  }

  /** What one step of a worker does to the counts not compared yet. */
  function NextUnjudged(c: Setup, s: State, a: Action): set<nat>
    requires OfWorker(a) && Ready(c, s, a)
  {
    var was, m, before := s.workers[a.w].mode, NextMode(c, s, a), Unjudged(s.workers);
    if was.Judging() then before - {was.step.count}
    else if m.Judging() then before + {s.board.leaked + 1}
    else before
  }

  lemma UnjudgedNext(c: Setup, s: State, a: Action)
    requires Wf(c, s) && Judged(s) && OfWorker(a) && Ready(c, s, a)
    ensures Unjudged(s.workers[a.w := s.workers[a.w].(mode := NextMode(c, s, a))]) == NextUnjudged(c, s, a)
  {
    UnjudgedPut(s.workers, a.w, s.workers[a.w].(mode := NextMode(c, s, a)));
  }

  lemma CountNext(c: Setup, s: State, a: Action)
    requires Wf(c, s) && OfWorker(a) && Ready(c, s, a)
    ensures var was, m, b := s.workers[a.w].mode, NextMode(c, s, a), NextBoard(c, s, a);
            && (was.Judging() ==> b == s.board.Judge(c.runner.maxLeaked, was.step.count))
            && (!was.Judging() ==> b.err == s.board.err
                                   && b.leaked == s.board.leaked + if m.Judging() then 1 else 0)
  {
  }

  lemma ExplainedWorker(c: Setup, s: State, a: Action)
    requires Wf(c, s) && Judged(s) && OfWorker(a) && Ready(c, s, a)
    requires Explained(c, s.board.err, s.alarm, s.board.leaked, Unjudged(s.workers))
    ensures var b := NextBoard(c, s, a); Explained(c, b.err, s.alarm, b.leaked, NextUnjudged(c, s, a))
  {
    CountNext(c, s, a);
    var was, before := s.workers[a.w].mode, Unjudged(s.workers);
    if was.Judging() {
      assert was.step.count in before;
      ExplainedJudge(c, s.board, s.alarm, before, was.step.count);
    } else {
      ExplainedBump(c, s.board.err, s.alarm, s.board.leaked, before);
    }
  }

  /** The goroutine that called `Run` gives nobody a count. */
  lemma UnjudgedMain(c: Setup, s: State, a: Action)
    requires Wf(c, s) && Judged(s) && OfMain(a) && Ready(c, s, a)
    ensures Judged(MainStep(c, s, a)) && Unjudged(MainStep(c, s, a).workers) == Unjudged(s.workers)
  {
    if a.FeedTo? {
      UnjudgedFeed(c, s, a.w);
    } else if a.BeginPhase? {
      UnjudgedBegin(c, s);
    }
  }

  lemma UnjudgedFeed(c: Setup, s: State, w: nat)
    requires Wf(c, s) && Judged(s) && Ready(c, s, FeedTo(w))
    ensures var t := MainStep(c, s, FeedTo(w)); Judged(t) && Unjudged(t.workers) == Unjudged(s.workers)
  {
    UnjudgedPut(s.workers, w, s.workers[w].(mode := Body(s.main.next, s.now)));
  }

  lemma UnjudgedBegin(c: Setup, s: State)
    requires Wf(c, s) && Judged(s) && s.main.Begin?
    ensures var t := MainStep(c, s, BeginPhase); Judged(t) && Unjudged(t.workers) == Unjudged(s.workers)
  {
    var t := MainStep(c, s, BeginPhase);
    UnjudgedGrow(s.workers, Width(c, s.main.pool), s.main.pool);
    forall v | 0 <= v < |t.workers| && t.workers[v].mode.Judging()
      ensures v < |s.workers| && t.workers[v] == s.workers[v]
    {
    }
  }

  lemma AccountedMain(c: Setup, s: State, a: Action)
    requires Wf(c, s) && Accounted(c, s) && OfMain(a) && Ready(c, s, a)
    ensures Accounted(c, MainStep(c, s, a))
  {
    UnjudgedMain(c, s, a);
  }

  lemma AccountedOutside(c: Setup, s: State, a: Action)
    requires Wf(c, s) && Accounted(c, s) && Enabled(c, s, a) && !OfMain(a) && !OfWorker(a)
    ensures Accounted(c, Apply(c, s, a))
  {
  }

  lemma AccountedStep(c: Setup, s: State, a: Action)
    requires Wf(c, s) && Accounted(c, s) && Enabled(c, s, a)
    ensures Accounted(c, Apply(c, s, a))
  {
    if OfWorker(a) {
      AccountedWorker(c, s, a);
    } else if OfMain(a) {
      AccountedMain(c, s, a);
    } else {
      AccountedOutside(c, s, a);
    }
  }

  // ----- The leak counter -----

  /** Counted as timed out, and not yet marked done. */
  predicate Counted(m: Mode) {
    m.Reporting? && m.verdict == TimedOut && (m.step.Judge? || m.step == Lock || m.step == Write || m.step == Mark)
  }

  ghost predicate Counts(c: Setup, s: State, w: nat, i: nat)
    requires Wf(c, s)
  {
    w < |s.workers| && Counted(s.workers[w].mode) && Index(c, s.workers[w]) == i
  }

  ghost predicate TimedOutAt(c: Setup, s: State, i: nat)
    requires Wf(c, s) && i < |c.tests|
  {
    (s.board.done[i] && s.board.results[i].status == TimedOut) || exists w :: Counts(c, s, w, i)
  }

  /** The tests reported as timed out so far, done or about to be. */
  ghost function TimedOutTests(c: Setup, s: State): set<nat>
    requires Wf(c, s)
  {
    set i: nat | i < |c.tests| && TimedOutAt(c, s, i)
  }

  ghost predicate Tallied(c: Setup, s: State)
    requires Wf(c, s)
  {
    s.board.leaked == |TimedOutTests(c, s)|
  }

  /** A worker that is not counted, or stays counted, changes no test's standing. */
  lemma SameTests(c: Setup, s: State, t: State, w: nat)
    requires Wf(c, s) && Wf(c, t) && w < |s.workers| == |t.workers|
    requires forall v :: 0 <= v < |s.workers| && v != w ==> t.workers[v] == s.workers[v]
    requires t.board.done == s.board.done && t.board.results == s.board.results
    requires Counted(t.workers[w].mode) == Counted(s.workers[w].mode)
    requires Counted(s.workers[w].mode) ==> Index(c, t.workers[w]) == Index(c, s.workers[w])
    ensures TimedOutTests(c, t) == TimedOutTests(c, s)
  {
    forall i: nat, v: nat | i < |c.tests| ensures Counts(c, s, v, i) == Counts(c, t, v, i) {
    }
  }

  /** Starting workers, or none, leaves every test where it stands. */
  lemma GrownTests(c: Setup, s: State, t: State, n: nat, p: bool)
    requires Wf(c, s) && Wf(c, t) && t.workers == s.workers + seq(n, _ => Worker(p, Idle))
    requires t.board.done == s.board.done && t.board.results == s.board.results
    ensures TimedOutTests(c, t) == TimedOutTests(c, s)
  {
    forall i: nat, v: nat | i < |c.tests| ensures Counts(c, s, v, i) == Counts(c, t, v, i) {
      assert v < |s.workers| ==> t.workers[v] == s.workers[v];
    }
  }

  lemma AddedTest(c: Setup, s: State, t: State, w: nat)
    requires Wf(c, s) && Wf(c, t) && w < |s.workers| == |t.workers|
    requires forall v :: 0 <= v < |s.workers| && v != w ==> t.workers[v] == s.workers[v]
    requires t.board.done == s.board.done && t.board.results == s.board.results
    requires Counted(t.workers[w].mode) && !Counted(s.workers[w].mode)
    ensures TimedOutTests(c, t) == TimedOutTests(c, s) + {Index(c, t.workers[w])}
  {
    var i := Index(c, t.workers[w]);
    assert Counts(c, t, w, i);
    forall j: nat, v: nat | j < |c.tests| ensures Counts(c, t, v, j) <==> Counts(c, s, v, j) || (v == w && j == i) {
    }
  }

  /** What an uncounted worker still has to report is not counted elsewhere. */
  lemma NotCountedYet(c: Setup, s: State, w: nat)
    requires Wf(c, s) && Taken(c, s) && w < |s.workers| && s.workers[w].mode.Busy()
    requires !Marked(s.workers[w].mode) && !Counted(s.workers[w].mode)
    ensures Index(c, s.workers[w]) !in TimedOutTests(c, s)
  {
    MarkIsPrivate(c, s, w);
    var i := Index(c, s.workers[w]);
    assert !s.board.done[i];
    forall v: nat ensures !Counts(c, s, v, i) {
    }
  }

  /** Counting a test adds it, and it was not there before. */
  lemma TalliedLeak(c: Setup, s: State, w: nat)
    requires Wf(c, s) && Taken(c, s) && Tallied(c, s) && Ready(c, s, Report(w))
    requires s.workers[w].mode.step == Leak && s.workers[w].mode.verdict == TimedOut
    ensures Tallied(c, WorkerStep(c, s, Report(w)))
  {
    var t := WorkerStep(c, s, Report(w));
    assert t.board.leaked == s.board.leaked + 1;
    assert Index(c, t.workers[w]) == Index(c, s.workers[w]);
    NotCountedYet(c, s, w);
    AddedTest(c, s, t, w);
    OneMore(TimedOutTests(c, s), Index(c, s.workers[w]));
  }

  lemma OneMore(tests: set<nat>, i: nat)
    requires i !in tests
    ensures |tests + {i}| == |tests| + 1
  {
  }

  /** Writing a counted or uncounted result changes nothing before it is marked. */
  lemma TalliedWrite(c: Setup, s: State, w: nat)
    requires Wf(c, s) && Taken(c, s) && Tallied(c, s) && Ready(c, s, Report(w)) && s.workers[w].mode.step == Write
    ensures Tallied(c, WorkerStep(c, s, Report(w)))
  {
    var t := WorkerStep(c, s, Report(w));
    forall j: nat, v: nat | j < |c.tests| ensures Counts(c, t, v, j) == Counts(c, s, v, j) {
    }
    forall j: nat | j < |c.tests| ensures TimedOutAt(c, t, j) == TimedOutAt(c, s, j) {
      assert j == Index(c, s.workers[w]) ==> !s.board.done[j];
    }
    assert TimedOutTests(c, t) == TimedOutTests(c, s);
  }

  /** Marking moves the test from its worker to the record. */
  lemma TalliedMark(c: Setup, s: State, w: nat)
    requires Wf(c, s) && Taken(c, s) && Mutex(s) && Filed(c, s) && Tallied(c, s) && Ready(c, s, Report(w))
    requires s.workers[w].mode.step == Mark
    ensures Tallied(c, WorkerStep(c, s, Report(w)))
  {
    var t := WorkerStep(c, s, Report(w));
    var x := s.workers[w];
    var i := Index(c, x);
    assert x.mode.Holding() && s.board.results[i] == Carried(c, x) && !s.board.done[i];
    MarkIsPrivate(c, s, w);
    forall j: nat, v: nat | j < |c.tests| ensures Counts(c, t, v, j) <==> Counts(c, s, v, j) && v != w {
    }
    assert Counts(c, s, w, i) == (x.mode.verdict == TimedOut);
    forall j: nat | j < |c.tests| ensures TimedOutAt(c, t, j) == TimedOutAt(c, s, j) {
      if v :| Counts(c, s, v, j) {
        assert v != w ==> Counts(c, t, v, j);
      }
    }
    assert TimedOutTests(c, t) == TimedOutTests(c, s);
  }

  lemma TalliedWorker(c: Setup, s: State, a: Action)
    requires Wf(c, s) && Taken(c, s) && Mutex(s) && Filed(c, s) && Tallied(c, s) && OfWorker(a) && Ready(c, s, a)
    ensures Tallied(c, WorkerStep(c, s, a))
  {
    if a.Report? && s.workers[a.w].mode.step == Write {
      TalliedWrite(c, s, a.w);
    } else if a.Report? && s.workers[a.w].mode.step == Mark {
      TalliedMark(c, s, a.w);
    } else if a.Report? && s.workers[a.w].mode.step == Leak && s.workers[a.w].mode.verdict == TimedOut {
      TalliedLeak(c, s, a.w);
    } else {
      TalliedOther(c, s, a);
    }
  }

  /** All other steps of a worker leave it counted or uncounted. */
  lemma TalliedOther(c: Setup, s: State, a: Action)
    requires Wf(c, s) && Tallied(c, s) && OfWorker(a) && Ready(c, s, a)
    requires a.Report? ==> s.workers[a.w].mode.step != Write && s.workers[a.w].mode.step != Mark
    requires a.Report? && s.workers[a.w].mode.step == Leak ==> s.workers[a.w].mode.verdict != TimedOut
    ensures Tallied(c, WorkerStep(c, s, a))
  {
    assert Counted(NextMode(c, s, a)) == Counted(s.workers[a.w].mode);
    SameTests(c, s, WorkerStep(c, s, a), a.w);
  }

  lemma TalliedOfMain(c: Setup, s: State, a: Action)
    requires Wf(c, s) && Tallied(c, s) && OfMain(a) && Ready(c, s, a)
    ensures Tallied(c, MainStep(c, s, a))
  {
    if a.FeedTo? {
      SameTests(c, s, MainStep(c, s, a), a.w);
    } else if a.BeginPhase? && |c.Entries(s.main.pool)| > 0 {
      GrownTests(c, s, MainStep(c, s, a), Width(c, s.main.pool), s.main.pool);
    } else {
      GrownTests(c, s, MainStep(c, s, a), 0, false);
    }
  }

  lemma TalliedStep(c: Setup, s: State, a: Action)
    requires Wf(c, s) && Taken(c, s) && Mutex(s) && Filed(c, s) && Tallied(c, s) && Enabled(c, s, a)
    ensures Tallied(c, Apply(c, s, a))
  {
    if OfWorker(a) {
      TalliedWorker(c, s, a);
    } else if OfMain(a) {
      TalliedOfMain(c, s, a);
    } else {
      TalliedOutside(c, s, a);
    }
  }

  lemma TalliedOutside(c: Setup, s: State, a: Action)
    requires Wf(c, s) && Tallied(c, s) && Enabled(c, s, a) && !OfMain(a) && !OfWorker(a)
    ensures Tallied(c, Apply(c, s, a))
  {
    OutsideFrame(c, s, a);
    GrownTests(c, s, Apply(c, s, a), 0, false);
    assert Apply(c, s, a).board.leaked == s.board.leaked;
  }

  // ----- Both over a run -----

  /** The tests that timed out, by the results of a complete run. */
  function TimedOutOf(out: seq<Result>): set<nat> {
    set i: nat | i < |out| && out[i].status == TimedOut
  }

  /** What a run nobody cut short had counted when it returned. */
  ghost predicate Settled(c: Setup, s: State) {
    s.main.Returned? && !s.main.cut ==> s.main.leaked == |TimedOutOf(s.main.out)| && s.main.unjudged == {}
  }

  lemma SettledReturn(c: Setup, s: State)
    requires Safe(c, s) && Tallied(c, s) && Ready(c, s, Return)
    ensures Settled(c, MainStep(c, s, Return))
  {
    if !s.cancelled {
      var n := |c.tests|;
      AllDone(c, s);
      CollectedAll(s.board, n);
      assert s.board.results[..n] == s.board.results;
      assert PhaseExited(s, false) && PhaseExited(s, true);
      forall i: nat, w: nat | i < n ensures !Counts(c, s, w, i) {
      }
      assert TimedOutOf(s.board.results) == TimedOutTests(c, s);
    }
  }

  lemma SettledStep(c: Setup, s: State, a: Action)
    requires Safe(c, s) && Tallied(c, s) && Settled(c, s) && Enabled(c, s, a)
    ensures Settled(c, Apply(c, s, a))
  {
    if a.Return? {
      SettledReturn(c, s);
    } else if s.main.Returned? {
      ReturnedKeeps(c, s, a);
    } else if !OfMain(a) && !OfWorker(a) {
      OutsideFrame(c, s, a);
    }
  }

  /** The books are right: the error, the counter, and what was returned. */
  ghost predicate Audited(c: Setup, s: State)
    requires Wf(c, s)
  {
    Accounted(c, s) && Tallied(c, s) && Settled(c, s)
  }

  lemma AuditedInit(c: Setup)
    requires Planned(c)
    ensures Wf(c, Init(c)) && Audited(c, Init(c))
  {
    SafeInit(c);
    assert TimedOutTests(c, Init(c)) == {};
  }

  lemma AuditedStep(c: Setup, s: State, a: Action)
    requires Safe(c, s) && Audited(c, s) && Enabled(c, s, a)
    ensures Audited(c, Apply(c, s, a))
  {
    AccountedStep(c, s, a);
    TalliedStep(c, s, a);
    SettledStep(c, s, a);
  }

  lemma {:induction false} AuditedRun(c: Setup, s: State, acts: seq<Action>, t: State)
    requires Safe(c, s) && Audited(c, s) && Leads(c, s, acts, t)
    ensures Wf(c, t) && Audited(c, t)
    decreases |acts|
  {
    if acts != [] {
      SafeStep(c, s, acts[0]);
      AuditedStep(c, s, acts[0]);
      AuditedRun(c, Apply(c, s, acts[0]), acts[1..], t);
    }
  }

  /** The counter counts each test reported as timed out, once, abandoned or not. */
  lemma LeaksCounted(c: Setup, acts: seq<Action>, s: State)
    requires Planned(c) && Reached(c, acts, s)
    ensures Wf(c, s) && s.board.leaked == |TimedOutTests(c, s)|
  {
    SafeInit(c);
    AuditedInit(c);
    AuditedRun(c, Init(c), acts, s);
  }

  /** `Run` returns an error exactly when, before it returned, the watchdog had
      fired or a worker had compared a count with the leak limit and found it
      reached, and the error names one of these. A run nobody cut short fails
      exactly when at least that many of its results timed out. */
  lemma ErrorMeans(c: Setup, acts: seq<Action>, s: State)
    requires Planned(c) && Reached(c, acts, s) && s.main.Returned?
    ensures s.main.err.None? <==>
              && !s.main.alarmed
              && forall n :: 0 <= n <= s.main.leaked && Excess(c, s.main.leaked, n) ==> n in s.main.unjudged
    ensures Explained(c, s.main.err, s.main.alarmed, s.main.leaked, s.main.unjudged)
    ensures !s.main.cut ==>
              && s.main.leaked == |TimedOutOf(s.main.out)| && s.main.err != Some(Stalled)
              && (s.main.err.Some? <==> AtLimit(c, s.main.leaked))
  {
    SafeInit(c);
    AuditedInit(c);
    AuditedRun(c, Init(c), acts, s);
    if !s.main.cut && AtLimit(c, s.main.leaked) {
      assert Excess(c, s.main.leaked, s.main.leaked);
    }
  }

  lemma ErrorStays(c: Setup, s: State, a: Action)
    requires Wf(c, s) && Enabled(c, s, a) && s.board.err.Some?
    ensures Apply(c, s, a).board.err == s.board.err
  {
  }

  /** The first breakdown on record is the one that stays there. */
  lemma {:induction false} FirstErrorStays(c: Setup, s: State, acts: seq<Action>, t: State)
    requires Wf(c, s) && Leads(c, s, acts, t) && s.board.err.Some?
    ensures t.board.err == s.board.err
    decreases |acts|
  {
    if acts != [] {
      ErrorStays(c, s, acts[0]);
      FirstErrorStays(c, Apply(c, s, acts[0]), acts[1..], t);
    }
  }

  // ----- What cuts a run short -----

  lemma CutStep(c: Setup, s: State, a: Action)
    requires Wf(c, s) && Accounted(c, s) && Enabled(c, s, a)
    ensures var t := Apply(c, s, a);
            && (s.alarm ==> t.alarm) && (s.main.Returned? ==> t.main.Returned?)
            && (t.cancelled <==> s.cancelled || a == Cancel || t.alarm || t.main.Returned?)
  {
    if s.main.Returned? {
      ReturnedKeeps(c, s, a);
    }
  }

  lemma {:induction false} CutRun(c: Setup, s: State, acts: seq<Action>, t: State)
    requires Wf(c, s) && Accounted(c, s) && Leads(c, s, acts, t)
    ensures (s.alarm ==> t.alarm) && (s.main.Returned? ==> t.main.Returned?)
    ensures t.cancelled <==> s.cancelled || Cancel in acts || t.alarm || t.main.Returned?
    decreases |acts|
  {
    if acts != [] {
      CutStep(c, s, acts[0]);
      AccountedStep(c, s, acts[0]);
      CutRun(c, Apply(c, s, acts[0]), acts[1..], t);
      assert acts == [acts[0]] + acts[1..];
    }
  }

  /** A run is cancelled by the caller, by the watchdog, or by returning, and by
      nothing else: reaching the leak limit does not cut it short. */
  lemma CancelledIff(c: Setup, acts: seq<Action>, s: State)
    requires Planned(c) && Reached(c, acts, s)
    ensures s.cancelled <==> Cancel in acts || s.alarm || s.main.Returned?
  {
    AuditedInit(c);
    CutRun(c, Init(c), acts, s);
  }

  /** A run that reaches its limit of one abandoned test and starts the next one. */
  lemma LimitGoesOn(c: Setup) returns (acts: seq<Action>, s: State)
    requires LateSetup(c) && c.runner.timeout > 0 && c.runner.maxLeaked == 1
    requires c.runner.timeout + Grace(c.runner) < c.runner.stallTimeout
    ensures Path(c, Init(c), acts, s) && s.board.err == Some(TooManyLeaked(1)) && !s.cancelled
    ensures s.workers == [Worker(false, Body(1, s.now))]
  {
    var i, b := Interval(c.runner), NewBoard(3, 0);
    var late := c.runner.timeout + Grace(c.runner) + 1;
    Opening(c);
    acts := [BeginPhase] + [FeedTo(0)];
    var held, m, next := HoldUntil(c, 0, Body(0, 0), 1, i, b, [], late);
    var s1 := Solo(late, m, 1, None, next, b, []);
    Chain(c, Init(c), acts, Solo(0, Body(0, 0), 1, None, i, b, []), held, s1);
    acts := acts + held;
    var passed, b', seen := PassOn(c, late, m, next, b);
    s := Solo(late, Body(1, late), 2, None, next, b', seen);
    Chain(c, Init(c), acts, s1, passed, s);
    acts := acts + passed;
  }

  /** Such a run exists, for a timeout of 20 s and a limit of one. */
  lemma LimitDoesNotAbort() returns (acts: seq<Action>, s: State)
    ensures var c := Plan(Runner(1, 20 * SECOND, 60 * SECOND, 120 * SECOND, 1, 0), LATE);
            && Reached(c, acts, s) && s.board.err == Some(TooManyLeaked(1)) && !s.cancelled
            && s.workers == [Worker(false, Body(1, s.now))]
  {
    var r := Runner(1, 20 * SECOND, 60 * SECOND, 120 * SECOND, 1, 0);
    LatePlan(r);
    acts, s := LimitGoesOn(Plan(r, LATE));
    assert Unfold(0);
  }
}
