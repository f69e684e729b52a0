/** What every interleaving of the run keeps, cancellation included. */
module ProtocolSafety {
  import opened Tests
  import opened Scheduler
  import opened Protocol

  /** What the watchdog, the caller and the clock leave alone. */
  lemma OutsideFrame(c: Setup, s: State, a: Action)
    requires Wf(c, s) && Enabled(c, s, a) && !OfMain(a) && !OfWorker(a)
    ensures var t := Apply(c, s, a);
            && t.workers == s.workers && t.main == s.main && t.lock == s.lock && t.began == s.began
            && t.observed == s.observed && t.board.done == s.board.done && t.board.results == s.board.results
            && t.board.progress == s.board.progress && (s.cancelled ==> t.cancelled)
  {
  }

  /** How many entries of a phase queue may have been handed out so far. */
  function Handed(c: Setup, m: Main, pool: bool): nat {
    var n := |c.Entries(pool)|;
    match m
    case Begin(q) => if q && !pool then n else 0
    case Feed(q, k) => if q == pool then k else if q then n else 0
    case Wait(q) => if q || !pool then n else 0
    case After(q) => if q || !pool then n else 0
    case Returned(_, _, _, _, _, _, _, _) => n
  }

  /** Workers started by the time `Run` is at `m`. */
  predicate Crew(c: Setup, m: Main, n: nat) {
    var ws, wp := Width(c, false), Width(c, true);
    match m
    case Begin(p) => n == (if p then ws else 0)
    case Feed(p, k) => k <= |c.Entries(p)| && Width(c, p) > 0 && n == (if p then ws + wp else ws)
    case Wait(p) => Width(c, p) > 0 && n == (if p then ws + wp else ws)
    case After(p) => n == (if p then ws + wp else ws)
    case Returned(_, _, _, _, _, _, _, _) => n == ws || n == ws + wp
  }

  predicate InPool(m: Main) {
    !m.Returned? && m.pool
  }

  /** Serial workers come first; the pool is only started once they have left. */
  ghost predicate Shape(c: Setup, s: State) {
    var ws := Width(c, false);
    && Crew(c, s.main, |s.workers|)
    && (forall w :: 0 <= w < |s.workers| ==> s.workers[w].pool == (w >= ws))
    && (InPool(s.main) || |s.workers| > ws ==> PhaseExited(s, false))
    && (s.main.After? ==> s.cancelled || PhaseExited(s, s.main.pool))
    && (forall w :: 0 <= w < |s.workers| && s.workers[w].mode.Exited? ==> Closed(s.main, s.workers[w].pool))
  }

  /** Replacing the mode of one running worker keeps the shape. */
  lemma ShapePut(c: Setup, s: State, t: State, w: nat, m: Mode)
    requires Shape(c, s) && w < |s.workers| && !s.workers[w].mode.Exited?
    requires t.workers == s.workers[w := s.workers[w].(mode := m)]
    requires t.main == s.main && t.cancelled == s.cancelled
    requires m.Exited? ==> Closed(s.main, s.workers[w].pool)
    ensures Shape(c, t)
  {
  }

  lemma ShapeMain(c: Setup, s: State, a: Action)
    requires Wf(c, s) && Shape(c, s) && Ready(c, s, a)
    requires a.FeedStop? || a.CloseQueue? || a.WaitDone? || a.WaitStop? || a.Advance? || a.Return?
    ensures Shape(c, MainStep(c, s, a))
  {
  }

  lemma ShapeBegin(c: Setup, s: State)
    requires Wf(c, s) && Shape(c, s) && s.main.Begin?
    ensures Shape(c, MainStep(c, s, BeginPhase))
  {
    var t, p := MainStep(c, s, BeginPhase), s.main.pool;
    if |c.Entries(p)| > 0 {
      forall v | 0 <= v < |t.workers|
        ensures t.workers[v] == if v < |s.workers| then s.workers[v] else Worker(p, Idle)
      {
      }
    }
  }

  lemma ShapeFeed(c: Setup, s: State, w: nat)
    requires Wf(c, s) && Shape(c, s) && Ready(c, s, FeedTo(w))
    ensures Shape(c, MainStep(c, s, FeedTo(w)))
  {
    var t := s.(main := Feed(s.main.pool, s.main.next + 1));
    assert Shape(c, t);
    ShapePut(c, t, MainStep(c, s, FeedTo(w)), w, Body(s.main.next, s.now));
  }

  lemma ShapeStep(c: Setup, s: State, a: Action)
    requires Wf(c, s) && Shape(c, s) && Enabled(c, s, a)
    ensures Shape(c, Apply(c, s, a))
  {
    if OfWorker(a) {
      var t := WorkerStep(c, s, a);
      ShapePut(c, s, t, a.w, NextMode(c, s, a));
    } else if a.BeginPhase? {
      ShapeBegin(c, s);
    } else if a.FeedTo? {
      ShapeFeed(c, s, a.w);
    } else if OfMain(a) {
      ShapeMain(c, s, a);
    } else {
      OutsideFrame(c, s, a);
    }
  }

  predicate Apart(x: Worker, y: Worker) {
    x.mode.Busy() && y.mode.Busy() && x.pool == y.pool ==> x.mode.pos != y.mode.pos
  }

  /** About to release the mutex, its test already marked done. */
  predicate Marked(m: Mode) {
    m.Reporting? && m.step == Observe
  }

  /** No two busy workers of a phase carry the same queue entry, entries not yet
      handed out are not done, and a carried entry is done only while its
      worker reports it. */
  ghost predicate Taken(c: Setup, s: State)
    requires Wf(c, s)
  {
    && (forall v, w :: 0 <= v < |s.workers| && 0 <= w < |s.workers| && v != w ==> Apart(s.workers[v], s.workers[w]))
    && (forall w :: 0 <= w < |s.workers| && s.workers[w].mode.Busy() ==>
                      s.workers[w].mode.pos < Handed(c, s.main, s.workers[w].pool))
    && (forall p, j :: Handed(c, s.main, p) <= j < |c.Entries(p)| ==> !s.board.done[c.Entries(p)[j]])
    && (forall w :: 0 <= w < |s.workers| && s.workers[w].mode.Busy() ==>
                      s.board.done[Index(c, s.workers[w])] == Marked(s.workers[w].mode))
  }

  /** Distinct queue entries are distinct tests. */
  lemma IndexesDiffer(c: Setup, p: bool, j: nat, q: bool, k: nat)
    requires Planned(c) && j < |c.Entries(p)| && k < |c.Entries(q)|
    requires p != q || j != k
    ensures c.Entries(p)[j] != c.Entries(q)[k]
  {
    assert Entry(c, p, j) && Entry(c, q, k);
    assert Before(c, p, j, k) && Before(c, p, k, j);
  }

  /** Marking what one worker carries touches nothing another one, or the queue, holds. */
  lemma MarkIsPrivate(c: Setup, s: State, w: nat)
    requires Wf(c, s) && Taken(c, s) && w < |s.workers| && s.workers[w].mode.Busy()
    ensures forall v :: 0 <= v < |s.workers| && v != w && s.workers[v].mode.Busy() ==>
                          Index(c, s.workers[v]) != Index(c, s.workers[w])
    ensures forall p, j :: Handed(c, s.main, p) <= j < |c.Entries(p)| ==>
                             c.Entries(p)[j] != Index(c, s.workers[w])
  {
    var x := s.workers[w];
    forall v | 0 <= v < |s.workers| && v != w && s.workers[v].mode.Busy()
      ensures Index(c, s.workers[v]) != Index(c, x)
    {
      IndexesDiffer(c, s.workers[v].pool, s.workers[v].mode.pos, x.pool, x.mode.pos);
    }
    forall p, j | Handed(c, s.main, p) <= j < |c.Entries(p)|
      ensures c.Entries(p)[j] != Index(c, x)
    {
      IndexesDiffer(c, p, j, x.pool, x.mode.pos);
    }
  }

  /** A worker that neither takes nor marks a test keeps `Taken`. */
  lemma TakenPut(c: Setup, s: State, t: State, w: nat, m: Mode)
    requires Wf(c, s) && Taken(c, s) && Wf(c, t) && w < |s.workers|
    requires t.workers == s.workers[w := s.workers[w].(mode := m)]
    requires t.main == s.main && t.board.done == s.board.done
    requires m.Busy() ==> s.workers[w].mode.Busy() && m.pos == s.workers[w].mode.pos
    requires m.Busy() ==> Marked(m) == Marked(s.workers[w].mode)
    ensures Taken(c, t)
  {
  }

  lemma TakenMark(c: Setup, s: State, w: nat)
    requires Wf(c, s) && Taken(c, s) && Ready(c, s, Report(w)) && s.workers[w].mode.step == Mark
    ensures Taken(c, WorkerStep(c, s, Report(w)))
  {
    var t := WorkerStep(c, s, Report(w));
    MarkIsPrivate(c, s, w);
    forall v | 0 <= v < |t.workers| && t.workers[v].mode.Busy()
      ensures t.board.done[Index(c, t.workers[v])] == Marked(t.workers[v].mode)
    {
      if v != w {
        assert t.workers[v] == s.workers[v];
      }
    }
  }

  /** Steps of the feeding goroutine that hand out nothing. */
  lemma TakenMain(c: Setup, s: State, t: State)
    requires Wf(c, s) && Taken(c, s) && Wf(c, t) && t.workers == s.workers && t.board.done == s.board.done
    requires forall p :: Handed(c, s.main, p) <= Handed(c, t.main, p)
    ensures Taken(c, t)
  {
  }

  lemma TakenBegin(c: Setup, s: State, t: State, n: nat, p: bool)
    requires Wf(c, s) && Taken(c, s) && Wf(c, t) && t.board == s.board
    requires t.workers == s.workers + seq(n, _ => Worker(p, Idle))
    requires forall q :: Handed(c, s.main, q) <= Handed(c, t.main, q)
    ensures Taken(c, t)
  {
    forall v | 0 <= v < |t.workers|
      ensures if v < |s.workers| then t.workers[v] == s.workers[v] else t.workers[v].mode == Idle
    {
    }
  }

  lemma TakenFeed(c: Setup, s: State, w: nat)
    requires Wf(c, s) && Shape(c, s) && Taken(c, s) && Ready(c, s, FeedTo(w))
    ensures Taken(c, MainStep(c, s, FeedTo(w)))
  {
    var t, p, k := MainStep(c, s, FeedTo(w)), s.main.pool, s.main.next;
    assert Handed(c, s.main, p) == k && Handed(c, t.main, p) == k + 1;
    assert !s.board.done[c.Entries(p)[k]];
    forall v | 0 <= v < |t.workers| && v != w ensures Apart(t.workers[v], t.workers[w]) {
      assert t.workers[v] == s.workers[v];
    }
  }

  lemma TakenWorker(c: Setup, s: State, a: Action)
    requires Wf(c, s) && Taken(c, s) && OfWorker(a) && Ready(c, s, a)
    ensures Taken(c, WorkerStep(c, s, a))
  {
    if a.Report? && s.workers[a.w].mode.step == Mark {
      TakenMark(c, s, a.w);
    } else {
      assert NextBoard(c, s, a).done == s.board.done;
      TakenPut(c, s, WorkerStep(c, s, a), a.w, NextMode(c, s, a));
    }
  }

  lemma TakenOfMain(c: Setup, s: State, a: Action)
    requires Wf(c, s) && Shape(c, s) && Taken(c, s) && OfMain(a) && Ready(c, s, a)
    ensures Taken(c, MainStep(c, s, a))
  {
    if a.BeginPhase? && |c.Entries(s.main.pool)| > 0 {
      TakenBegin(c, s, MainStep(c, s, a), Width(c, s.main.pool), s.main.pool);
    } else if a.FeedTo? {
      TakenFeed(c, s, a.w);
    } else {
      TakenMain(c, s, MainStep(c, s, a));
    }
  }

  lemma TakenStep(c: Setup, s: State, a: Action)
    requires Wf(c, s) && Shape(c, s) && Taken(c, s) && Enabled(c, s, a)
    ensures Taken(c, Apply(c, s, a))
  {
    if OfWorker(a) {
      TakenWorker(c, s, a);
    } else if OfMain(a) {
      TakenOfMain(c, s, a);
    } else {
      OutsideFrame(c, s, a);
      TakenMain(c, s, Apply(c, s, a));
    }
  }

  /** Whether `Observe` has been called for test `i`. */
  ghost predicate Seen(s: State, i: nat) {
    exists k :: 0 <= k < |s.observed| && s.observed[k].0 == i
  }

  /** The mutex is held by exactly the worker between Lock and Observe. */
  ghost predicate Mutex(s: State) {
    && (s.lock.Some? ==> s.lock.value < |s.workers|)
    && (forall w :: 0 <= w < |s.workers| ==> s.workers[w].mode.Holding() == (s.lock == Some(w)))
  }

  lemma MutexWorker(c: Setup, s: State, a: Action)
    requires Wf(c, s) && Mutex(s) && OfWorker(a) && Ready(c, s, a)
    ensures Mutex(WorkerStep(c, s, a))
  {
    var t := WorkerStep(c, s, a);
    assert s.workers[a.w].mode.Holding() == (s.lock == Some(a.w));
    assert NextMode(c, s, a).Holding() == (t.lock == Some(a.w));
    forall v | 0 <= v < |t.workers| && v != a.w ensures t.workers[v].mode.Holding() == (t.lock == Some(v)) {
      assert t.workers[v] == s.workers[v];
    }
  }

  lemma MutexStep(c: Setup, s: State, a: Action)
    requires Wf(c, s) && Mutex(s) && Enabled(c, s, a)
    ensures Mutex(Apply(c, s, a))
  {
    if OfWorker(a) {
      MutexWorker(c, s, a);
    } else if OfMain(a) {
      var t := MainStep(c, s, a);
      forall v | 0 <= v < |t.workers|
        ensures t.workers[v].mode.Holding() == (v < |s.workers| && s.workers[v].mode.Holding())
      {
      }
    } else {
      OutsideFrame(c, s, a);
    }
  }

  /** What is done is recorded under its own test; `Observe` has been called
      once for everything done, save what the mutex holder is about to report. */
  ghost predicate Filed(c: Setup, s: State)
    requires Wf(c, s)
  {
    && (forall w :: 0 <= w < |s.workers| && s.workers[w].mode.Holding() && s.workers[w].mode.step != Write ==>
                      s.board.results[Index(c, s.workers[w])] == Carried(c, s.workers[w]))
    && (forall i :: 0 <= i < |c.tests| && s.board.done[i] ==> s.board.results[i].test == c.tests[i])
    && (forall k :: 0 <= k < |s.observed| ==>
                      && s.observed[k].0 < |c.tests| && s.board.done[s.observed[k].0]
                      && s.board.results[s.observed[k].0] == s.observed[k].1)
    && (forall j, k :: 0 <= j < k < |s.observed| ==> s.observed[j].0 != s.observed[k].0)
    && (forall w :: 0 <= w < |s.workers| && Marked(s.workers[w].mode) ==> !Seen(s, Index(c, s.workers[w])))
    && (forall i :: 0 <= i < |c.tests| && s.board.done[i] && !Seen(s, i) ==> Pending(c, s, i))
  }

  /** Some worker has marked test `i` and not reported it yet. */
  ghost predicate Pending(c: Setup, s: State, i: nat)
    requires Wf(c, s)
  {
    exists w :: 0 <= w < |s.workers| && Marked(s.workers[w].mode) && Index(c, s.workers[w]) == i
  }

  /** A step that leaves the record, the mutex and its holder alone. */
  lemma FiledPut(c: Setup, s: State, t: State, w: nat, m: Mode)
    requires Wf(c, s) && Filed(c, s) && Wf(c, t) && w < |s.workers|
    requires t.workers == s.workers[w := s.workers[w].(mode := m)]
    requires !m.Holding() && !s.workers[w].mode.Holding()
    requires t.observed == s.observed
    requires t.board.done == s.board.done && t.board.results == s.board.results
    ensures Filed(c, t)
  {
    assert forall i :: Seen(s, i) == Seen(t, i);
    forall i | 0 <= i < |c.tests| && Pending(c, s, i) ensures Pending(c, t, i) {
      var v :| 0 <= v < |s.workers| && Marked(s.workers[v].mode) && Index(c, s.workers[v]) == i;
      assert t.workers[v] == s.workers[v];
    }
  }

  lemma FiledLock(c: Setup, s: State, w: nat)
    requires Wf(c, s) && Filed(c, s) && Ready(c, s, Report(w)) && s.workers[w].mode.step == Lock
    ensures Filed(c, WorkerStep(c, s, Report(w)))
  {
    var t := WorkerStep(c, s, Report(w));
    assert forall i :: Seen(s, i) == Seen(t, i);
    forall i | 0 <= i < |c.tests| && Pending(c, s, i) ensures Pending(c, t, i) {
      var v :| 0 <= v < |s.workers| && Marked(s.workers[v].mode) && Index(c, s.workers[v]) == i;
      assert t.workers[v] == s.workers[v];
    }
  }

  lemma FiledWrite(c: Setup, s: State, w: nat)
    requires Wf(c, s) && Mutex(s) && Filed(c, s) && Ready(c, s, Report(w)) && s.workers[w].mode.step == Write
    requires !s.board.done[Index(c, s.workers[w])]
    ensures Filed(c, WorkerStep(c, s, Report(w)))
  {
    var t := WorkerStep(c, s, Report(w));
    assert s.workers[w].mode.Holding();
    assert forall i :: Seen(s, i) == Seen(t, i);
    forall j | 0 <= j < |c.tests| && s.board.done[j] ensures Seen(s, j) {
      assert !Pending(c, s, j);
    }
  }

  lemma FiledMark(c: Setup, s: State, w: nat)
    requires Wf(c, s) && Mutex(s) && Filed(c, s) && Ready(c, s, Report(w)) && s.workers[w].mode.step == Mark
    requires !s.board.done[Index(c, s.workers[w])]
    ensures Filed(c, WorkerStep(c, s, Report(w)))
  {
    var t := WorkerStep(c, s, Report(w));
    var i := Index(c, s.workers[w]);
    assert s.workers[w].mode.Holding();
    assert forall i :: Seen(s, i) == Seen(t, i);
    assert !Seen(s, i);
    assert Carried(c, t.workers[w]) == Carried(c, s.workers[w]);
    assert Marked(t.workers[w].mode) && Index(c, t.workers[w]) == i;
    assert Pending(c, t, i);
    forall j | 0 <= j < |c.tests| && s.board.done[j] ensures Seen(s, j) {
      assert !Pending(c, s, j);
    }
  }

  /** Once the mutex holder has reported, everything done has been observed. */
  lemma ObserveSeesAll(c: Setup, s: State, w: nat)
    requires Wf(c, s) && Mutex(s) && Filed(c, s) && w < |s.workers| && Marked(s.workers[w].mode)
    ensures forall j :: 0 <= j < |c.tests| && s.board.done[j] ==> Seen(s, j) || j == Index(c, s.workers[w])
    ensures forall v :: 0 <= v < |s.workers| && v != w ==> !s.workers[v].mode.Holding()
  {
    assert s.workers[w].mode.Holding();
    forall j | 0 <= j < |c.tests| && s.board.done[j] && !Seen(s, j) ensures j == Index(c, s.workers[w]) {
      var v :| 0 <= v < |s.workers| && Marked(s.workers[v].mode) && Index(c, s.workers[v]) == j;
      assert s.workers[v].mode.Holding();
    }
  }

  lemma SeenGrows(s: State, t: State, i: nat, r: Result, j: nat)
    requires t.observed == s.observed + [(i, r)]
    ensures Seen(t, j) == (Seen(s, j) || j == i)
  {
    assert t.observed[|s.observed|] == (i, r);
    if Seen(s, j) {
      var k :| 0 <= k < |s.observed| && s.observed[k].0 == j;
      assert t.observed[k].0 == j;
    }
  }

  lemma FiledObserve(c: Setup, s: State, w: nat)
    requires Wf(c, s) && Mutex(s) && Filed(c, s) && Ready(c, s, Report(w)) && s.workers[w].mode.step == Observe
    requires s.board.done[Index(c, s.workers[w])]
    ensures Filed(c, WorkerStep(c, s, Report(w)))
  {
    var t := WorkerStep(c, s, Report(w));
    var i := Index(c, s.workers[w]);
    ObserveCovers(c, s, w);
    forall k | 0 <= k < |s.observed| ensures s.observed[k].0 != i {
      assert Marked(s.workers[w].mode) && !Seen(s, i);
    }
  }

  /** After the report everything done has been observed and nobody holds the mutex. */
  lemma ObserveCovers(c: Setup, s: State, w: nat)
    requires Wf(c, s) && Mutex(s) && Filed(c, s) && Ready(c, s, Report(w)) && s.workers[w].mode.step == Observe
    ensures var t := WorkerStep(c, s, Report(w));
            && (forall j :: 0 <= j < |c.tests| && t.board.done[j] ==> Seen(t, j))
            && (forall v :: 0 <= v < |t.workers| ==> !t.workers[v].mode.Holding())
  {
    var t := WorkerStep(c, s, Report(w));
    ObserveSeesAll(c, s, w);
    forall j | 0 <= j < |c.tests| && t.board.done[j] ensures Seen(t, j) {
      SeenGrows(s, t, Index(c, s.workers[w]), Carried(c, s.workers[w]), j);
    }
  }

  /** Starting workers, or none, changes nothing here. */
  lemma FiledGrow(c: Setup, s: State, t: State, n: nat, p: bool)
    requires Wf(c, s) && Filed(c, s) && Wf(c, t)
    requires t.workers == s.workers + seq(n, _ => Worker(p, Idle))
    requires t.observed == s.observed
    requires t.board.done == s.board.done && t.board.results == s.board.results
    ensures Filed(c, t)
  {
    assert forall i :: Seen(s, i) == Seen(t, i);
    forall v | 0 <= v < |t.workers|
      ensures if v < |s.workers| then t.workers[v] == s.workers[v] else t.workers[v].mode == Idle
    {
    }
    forall i | 0 <= i < |c.tests| && Pending(c, s, i) ensures Pending(c, t, i) {
      var w :| 0 <= w < |s.workers| && Marked(s.workers[w].mode) && Index(c, s.workers[w]) == i;
      assert Marked(t.workers[w].mode);
    }
  }

  lemma FiledWorker(c: Setup, s: State, a: Action)
    requires Wf(c, s) && Taken(c, s) && Mutex(s) && Filed(c, s) && OfWorker(a) && Ready(c, s, a)
    ensures Filed(c, WorkerStep(c, s, a))
  {
    if a.Report? && s.workers[a.w].mode.step == Lock {
      FiledLock(c, s, a.w);
    } else if a.Report? && s.workers[a.w].mode.step == Write {
      FiledWrite(c, s, a.w);
    } else if a.Report? && s.workers[a.w].mode.step == Mark {
      FiledMark(c, s, a.w);
    } else if a.Report? && s.workers[a.w].mode.step == Observe {
      FiledObserve(c, s, a.w);
    } else {
      assert !s.workers[a.w].mode.Holding() && !NextMode(c, s, a).Holding();
      FiledPut(c, s, WorkerStep(c, s, a), a.w, NextMode(c, s, a));
    }
  }

  lemma FiledOfMain(c: Setup, s: State, a: Action)
    requires Wf(c, s) && Filed(c, s) && Mutex(s) && OfMain(a) && Ready(c, s, a)
    ensures Filed(c, MainStep(c, s, a))
  {
    if a.FeedTo? {
      FiledPut(c, s, MainStep(c, s, a), a.w, Body(s.main.next, s.now));
    } else if a.BeginPhase? && |c.Entries(s.main.pool)| > 0 {
      FiledGrow(c, s, MainStep(c, s, a), Width(c, s.main.pool), s.main.pool);
    } else {
      FiledGrow(c, s, MainStep(c, s, a), 0, false);
    }
  }

  lemma FiledStep(c: Setup, s: State, a: Action)
    requires Wf(c, s) && Taken(c, s) && Mutex(s) && Filed(c, s) && Enabled(c, s, a)
    ensures Filed(c, Apply(c, s, a))
  {
    if OfWorker(a) {
      FiledWorker(c, s, a);
    } else if OfMain(a) {
      FiledOfMain(c, s, a);
    } else {
      OutsideFrame(c, s, a);
      FiledGrow(c, s, Apply(c, s, a), 0, false);
    }
  }

  /** While nobody cancelled, whatever was handed out is done or being worked on. */
  ghost predicate Covered(c: Setup, s: State)
    requires Wf(c, s)
  {
    !s.cancelled ==>
      forall p, j :: 0 <= j < |c.Entries(p)| && j < Handed(c, s.main, p) ==> Cared(c, s, p, j)
  }

  ghost predicate Cared(c: Setup, s: State, p: bool, j: nat)
    requires Wf(c, s) && j < |c.Entries(p)|
  {
    s.board.done[c.Entries(p)[j]] || exists w :: 0 <= w < |s.workers| && Carries(s.workers[w], p, j)
  }

  predicate Carries(x: Worker, p: bool, j: nat) {
    x.mode.Busy() && x.pool == p && x.mode.pos == j
  }

  /** A busy worker stays with its test until that test is done. */
  lemma StaysBusy(c: Setup, s: State, a: Action, w: nat)
    requires Wf(c, s) && OfWorker(a) && Ready(c, s, a)
    requires w < |s.workers| && s.workers[w].mode.Busy() && !Marked(s.workers[w].mode)
    ensures var x := WorkerStep(c, s, a).workers[w];
            x.pool == s.workers[w].pool && x.mode.Busy() && x.mode.pos == s.workers[w].mode.pos
  {
    if w == a.w {
      assert Stage(NextMode(c, s, a)) in {2, 3, 4, 5, 6, 7, 8, 9};
    }
  }

  lemma CaredStays(c: Setup, s: State, a: Action, p: bool, j: nat)
    requires Wf(c, s) && Taken(c, s) && OfWorker(a) && Ready(c, s, a)
    requires j < |c.Entries(p)| && Cared(c, s, p, j)
    ensures Cared(c, WorkerStep(c, s, a), p, j)
  {
    var t := WorkerStep(c, s, a);
    if !s.board.done[c.Entries(p)[j]] {
      var w :| 0 <= w < |s.workers| && Carries(s.workers[w], p, j);
      assert !Marked(s.workers[w].mode);
      StaysBusy(c, s, a, w);
      assert Carries(t.workers[w], p, j);
    }
  }

  lemma CoveredWorker(c: Setup, s: State, a: Action)
    requires Wf(c, s) && Taken(c, s) && Covered(c, s) && OfWorker(a) && Ready(c, s, a)
    ensures Covered(c, WorkerStep(c, s, a))
  {
    var t := WorkerStep(c, s, a);
    if !s.cancelled {
      forall p, j | 0 <= j < |c.Entries(p)| && j < Handed(c, s.main, p) ensures Cared(c, t, p, j) {
        CaredStays(c, s, a, p, j);
      }
    }
  }

  lemma CoveredGrow(c: Setup, s: State, t: State, n: nat, q: bool)
    requires Wf(c, s) && Covered(c, s) && Wf(c, t) && t.board.done == s.board.done
    requires t.workers == s.workers + seq(n, _ => Worker(q, Idle))
    requires t.cancelled || (!s.cancelled && forall p :: Handed(c, t.main, p) == Handed(c, s.main, p))
    ensures Covered(c, t)
  {
    if !t.cancelled {
      forall p, j | 0 <= j < |c.Entries(p)| && j < Handed(c, t.main, p) ensures Cared(c, t, p, j) {
        assert Cared(c, s, p, j);
        if !s.board.done[c.Entries(p)[j]] {
          var w :| 0 <= w < |s.workers| && Carries(s.workers[w], p, j);
          assert Carries(t.workers[w], p, j);
        }
      }
    }
  }

  lemma CoveredFeed(c: Setup, s: State, w: nat)
    requires Wf(c, s) && Shape(c, s) && Covered(c, s) && Ready(c, s, FeedTo(w))
    ensures Covered(c, MainStep(c, s, FeedTo(w)))
  {
    var t := MainStep(c, s, FeedTo(w));
    if !t.cancelled {
      forall p, j | 0 <= j < |c.Entries(p)| && j < Handed(c, t.main, p) ensures Cared(c, t, p, j) {
        if p == s.main.pool && j == s.main.next {
          assert Carries(t.workers[w], p, j);
        } else {
          assert Cared(c, s, p, j);
          if !s.board.done[c.Entries(p)[j]] {
            var v :| 0 <= v < |s.workers| && Carries(s.workers[v], p, j);
            assert Carries(t.workers[v], p, j);
          }
        }
      }
    }
  }

  lemma CoveredOfMain(c: Setup, s: State, a: Action)
    requires Wf(c, s) && Shape(c, s) && Covered(c, s) && OfMain(a) && Ready(c, s, a)
    ensures Covered(c, MainStep(c, s, a))
  {
    if a.FeedTo? {
      CoveredFeed(c, s, a.w);
    } else if a.BeginPhase? && |c.Entries(s.main.pool)| > 0 {
      CoveredGrow(c, s, MainStep(c, s, a), Width(c, s.main.pool), s.main.pool);
    } else {
      CoveredGrow(c, s, MainStep(c, s, a), 0, false);
    }
  }

  lemma CoveredStep(c: Setup, s: State, a: Action)
    requires Wf(c, s) && Shape(c, s) && Taken(c, s) && Covered(c, s) && Enabled(c, s, a)
    ensures Covered(c, Apply(c, s, a))
  {
    if OfWorker(a) {
      CoveredWorker(c, s, a);
    } else if OfMain(a) {
      CoveredOfMain(c, s, a);
    } else {
      OutsideFrame(c, s, a);
      CoveredGrow(c, s, Apply(c, s, a), 0, false);
    }
  }

  /** The results name tests of the input in input order, and all of them if
      the run was never cut short. */
  ghost predicate InOrder(c: Setup, out: seq<Result>, cut: bool) {
    && (exists picks: seq<nat> :: Names(c, out, picks))
    && (!cut ==> |out| == |c.tests| && forall i :: 0 <= i < |out| ==> out[i].test == c.tests[i])
  }

  ghost predicate Names(c: Setup, out: seq<Result>, picks: seq<nat>) {
    && |picks| == |out|
    && (forall k :: 0 <= k < |picks| ==> picks[k] < |c.tests| && out[k].test == c.tests[picks[k]])
    && (forall j, k :: 0 <= j < k < |picks| ==> picks[j] < picks[k])
  }

  ghost predicate Delivered(c: Setup, s: State) {
    s.main.Returned? ==> InOrder(c, s.main.out, s.main.cut)
  }

  /** When an uncancelled run gets to the end of the pool phase, everything is done. */
  lemma AllDone(c: Setup, s: State)
    requires Wf(c, s) && Shape(c, s) && Covered(c, s) && !s.cancelled && s.main == After(true)
    ensures forall i :: 0 <= i < |c.tests| ==> s.board.done[i]
  {
    assert PhaseExited(s, false) && PhaseExited(s, true);
    forall i | 0 <= i < |c.tests| ensures s.board.done[i] {
      EntryDone(c, s, i);
    }
  }

  lemma EntryDone(c: Setup, s: State, i: nat)
    requires Wf(c, s) && Covered(c, s) && !s.cancelled && s.main == After(true) && i < |c.tests|
    requires PhaseExited(s, false) && PhaseExited(s, true)
    ensures s.board.done[i]
  {
    var p := !IsSerial(c.tests[i]);
    assert InQueue(c, i);
    var j :| 0 <= j < |c.Entries(p)| && c.Entries(p)[j] == i;
    assert Cared(c, s, p, j);
    forall w | 0 <= w < |s.workers| ensures !Carries(s.workers[w], p, j) {}
  }

  lemma DeliveredReturn(c: Setup, s: State)
    requires Wf(c, s) && Shape(c, s) && Filed(c, s) && Covered(c, s) && Ready(c, s, Return)
    ensures Delivered(c, MainStep(c, s, Return))
  {
    var n := |c.tests|;
    var out := Collected(s.board, n);
    var picks := CollectedSelects(s.board, n);
    forall k | 0 <= k < |picks| ensures picks[k] < n && out[k].test == c.tests[picks[k]] {
      assert picks[k] in picks;
    }
    assert Names(c, out, picks);
    if !s.cancelled {
      AllDone(c, s);
      CollectedAll(s.board, n);
    }
  }

  lemma DeliveredStep(c: Setup, s: State, a: Action)
    requires Wf(c, s) && Shape(c, s) && Filed(c, s) && Covered(c, s) && Delivered(c, s) && Enabled(c, s, a)
    ensures Delivered(c, Apply(c, s, a))
  {
    if a.Return? {
      DeliveredReturn(c, s);
    } else if !OfMain(a) && !OfWorker(a) {
      OutsideFrame(c, s, a);
    }
  }

  ghost predicate Safe(c: Setup, s: State) {
    Wf(c, s) && Shape(c, s) && Taken(c, s) && Mutex(s) && Filed(c, s) && Covered(c, s) && Delivered(c, s)
  }

  lemma SafeInit(c: Setup)
    requires Planned(c)
    ensures Safe(c, Init(c))
  {
  }

  lemma SafeStep(c: Setup, s: State, a: Action)
    requires Safe(c, s) && Enabled(c, s, a)
    ensures Safe(c, Apply(c, s, a))
  {
    ShapeStep(c, s, a);
    TakenStep(c, s, a);
    MutexStep(c, s, a);
    FiledStep(c, s, a);
    CoveredStep(c, s, a);
    DeliveredStep(c, s, a);
  }

  /** Every step of every run keeps `Safe`. */
  lemma {:induction false} SafeRun(c: Setup, s: State, acts: seq<Action>, t: State)
    requires Safe(c, s) && Leads(c, s, acts, t)
    ensures Safe(c, t)
    decreases |acts|
  {
    if acts != [] {
      SafeStep(c, s, acts[0]);
      SafeRun(c, Apply(c, s, acts[0]), acts[1..], t);
    }
  }

  /** The workers inside `runOne`. */
  function Running(s: State): set<nat> {
    set w: nat | w < |s.workers| && s.workers[w].mode.InRunOne()
  }

  lemma RangeSize(s: set<nat>, lo: nat, n: nat)
    requires forall x :: x in s ==> lo <= x < lo + n
    ensures |s| <= n
    decreases n
  {
    if n > 0 {
      RangeSize(s - {lo + n - 1}, lo, n - 1);
    }
  }

  lemma Isolated(c: Setup, s: State)
    requires Safe(c, s)
    ensures forall w :: w in Running(s) && !s.workers[w].pool ==> Running(s) == {w}
    ensures |Running(s)| <= if Width(c, true) < 1 then 1 else Width(c, true)
  {
    var ws := Width(c, false);
    forall w | w in Running(s) && !s.workers[w].pool ensures Running(s) == {w} && |Running(s)| <= 1 {
      assert |s.workers| == ws <= 1;
      assert forall v :: v in Running(s) ==> v == w;
      assert Running(s) == {w};
    }
    if forall w :: w in Running(s) ==> s.workers[w].pool {
      RangeSize(Running(s), ws, Width(c, true));
    }
  }

  /** In any interleaving, a test marked serial runs alone, and never more
      workers are inside `runOne` than asked for. */
  lemma PhaseIsolation(c: Setup, acts: seq<Action>, s: State)
    requires Planned(c) && Reached(c, acts, s)
    ensures Wf(c, s)
    ensures forall w :: w in Running(s) && "serial" in c.tests[Index(c, s.workers[w])].markers ==> Running(s) == {w}
    ensures var n := |c.parallel|;
            var most := if c.runner.parallel < n then c.runner.parallel else n;
            |Running(s)| <= if most < 1 then 1 else most
  {
    SafeInit(c);
    SafeRun(c, Init(c), acts, s);
    Isolated(c, s);
    forall w | w in Running(s) && IsSerial(c.tests[Index(c, s.workers[w])]) ensures !s.workers[w].pool {
      assert PosOk(c, s.workers[w]);
      assert Entry(c, s.workers[w].pool, s.workers[w].mode.pos);
    }
  }

  /** Cancelled before the pool phase: nobody works in the pool, or will. */
  ghost predicate SerialOnly(s: State) {
    && s.cancelled && !InPool(s.main)
    && forall w :: 0 <= w < |s.workers| ==> !s.workers[w].pool
  }

  lemma SerialOnlyStep(c: Setup, s: State, a: Action)
    requires Wf(c, s) && SerialOnly(s) && Enabled(c, s, a)
    ensures SerialOnly(Apply(c, s, a))
  {
    if !OfMain(a) && !OfWorker(a) {
      OutsideFrame(c, s, a);
    }
  }

  lemma {:induction false} SerialOnlyRun(c: Setup, s: State, acts: seq<Action>, t: State)
    requires Wf(c, s) && SerialOnly(s) && Leads(c, s, acts, t)
    ensures SerialOnly(t)
    decreases |acts|
  {
    if acts != [] {
      SerialOnlyStep(c, s, acts[0]);
      SerialOnlyRun(c, Apply(c, s, acts[0]), acts[1..], t);
    }
  }

  /** Once a run is cancelled in the serial phase, the pool phase never starts. */
  lemma NoPoolAfterCancel(c: Setup, before: seq<Action>, s: State, acts: seq<Action>, t: State)
    requires Planned(c) && Reached(c, before, s) && s.cancelled && !s.main.Returned? && !s.main.pool
    requires Wf(c, s) && Leads(c, s, acts, t)
    ensures forall w :: 0 <= w < |t.workers| ==> !t.workers[w].pool
  {
    SafeInit(c);
    SafeRun(c, Init(c), before, s);
    SerialOnlyRun(c, s, acts, t);
  }

  lemma ObservedIsDone(c: Setup, s: State, i: nat, x: Result)
    requires Safe(c, s) && s.lock.None? && i < |c.tests|
    ensures (i, x) in s.observed <==> s.board.done[i] && s.board.results[i] == x
  {
    if s.board.done[i] && s.board.results[i] == x {
      forall w | 0 <= w < |s.workers| ensures !Marked(s.workers[w].mode) {
        assert !s.workers[w].mode.Holding();
      }
      assert !Pending(c, s, i);
      var k :| 0 <= k < |s.observed| && s.observed[k].0 == i;
      assert s.observed[k] == (i, x);
    }
  }

  /** No test is finished twice; what is done is recorded under its own test;
      and whenever the mutex is free `Observe` has been called exactly once for
      each test done, with the result on record, and for no other. */
  lemma ExactlyOnce(c: Setup, acts: seq<Action>, s: State)
    requires Planned(c) && Reached(c, acts, s)
    ensures Wf(c, s)
    ensures forall w :: 0 <= w < |s.workers| && s.workers[w].mode.Reporting? && s.workers[w].mode.step == Mark ==>
              !s.board.done[Index(c, s.workers[w])]
    ensures forall i :: 0 <= i < |c.tests| && s.board.done[i] ==> s.board.results[i].test == c.tests[i]
    ensures forall j, k :: 0 <= j < k < |s.observed| ==> s.observed[j].0 != s.observed[k].0
    ensures s.lock.None? ==>
              forall i, x :: 0 <= i < |c.tests| ==>
                ((i, x) in s.observed <==> s.board.done[i] && s.board.results[i] == x)
  {
    SafeInit(c);
    SafeRun(c, Init(c), acts, s);
    if s.lock.None? {
      forall i, x | 0 <= i < |c.tests|
        ensures (i, x) in s.observed <==> s.board.done[i] && s.board.results[i] == x
      {
        ObservedIsDone(c, s, i, x);
      }
    }
  }

  /** Whatever happened, `Run` returns results of its own tests in input order;
      a run nobody cut short returns one for every test. */
  lemma ResultsInOrder(c: Setup, acts: seq<Action>, s: State)
    requires Planned(c) && Reached(c, acts, s)
    requires s.main.Returned?
    ensures InOrder(c, s.main.out, s.main.cut)
  {
    SafeInit(c);
    SafeRun(c, Init(c), acts, s);
  }
}
