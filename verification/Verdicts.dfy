/** What the reported statuses mean, against what bodies and cleanups did in the
    course of a run. */
module Verdicts {
  import opened Tests
  import opened Scheduler
  import opened Protocol
  import opened ProtocolSafety

  /** What has happened to the tests, by index: how bodies ended, which were
      abandoned, whose cleanups ended unmarked, and which bodies had ended Failed
      with the context done by the time their cleanups were over. */
  datatype Past = Past(ended: map<nat, Status>, gone: set<nat>, late: set<nat>, clean: set<nat>)

  const NOTHING := Past(map[], {}, {}, {})

  ghost function Noted(c: Setup, s: State, a: Action, h: Past): Past
    requires Wf(c, s) && Enabled(c, s, a)
  {
    if a.BodyEnds? then h.(ended := h.ended[Index(c, s.workers[a.w]) := a.status])
    else if a.Abandon? then h.(gone := h.gone + {Index(c, s.workers[a.w])})
    else if a.CleanupEnds? || a.CleanupExpires? then
      var i, start := Index(c, s.workers[a.w]), s.workers[a.w].mode.start;
      var overdue := s.cancelled || (c.runner.timeout > 0 && s.now >= start + c.runner.timeout);
      h.(late := h.late + (if i in h.ended && h.ended[i] == Failed && overdue then {i} else {}),
      clean := h.clean + (if a.CleanupEnds? && !a.marked then {i} else {}))
    else h
  }

  ghost function History(c: Setup, s: State, acts: seq<Action>, h: Past): Past
    requires Wf(c, s)
    decreases |acts|
  {
    if acts == [] || !Enabled(c, s, acts[0]) then h
    else History(c, Apply(c, s, acts[0]), acts[1..], Noted(c, s, acts[0], h))
  }

  /** What happened in a run. */
  ghost function PastOf(c: Setup, acts: seq<Action>): Past
    requires Planned(c)
  {
    History(c, Init(c), acts, NOTHING)
  }

  /** How a status follows from what happened. */
  predicate Accounts(h: Past, i: nat, status: Status) {
    && (i in h.gone <==> i !in h.ended)
    && (i in h.late ==> i in h.ended && h.ended[i] == Failed)
    && (status == Passed <==> i in h.ended && h.ended[i] == Passed && i in h.clean)
    && (status == Skipped <==> i in h.ended && h.ended[i] == Skipped)
    && (status == TimedOut <==> i in h.gone || i in h.late)
    && (status == Failed <==>
          i in h.ended && ((h.ended[i] == Failed && i !in h.late) || (h.ended[i] == Passed && i !in h.clean)))
  }

  /** Nothing has happened to the test yet. */
  predicate Fresh(h: Past, i: nat) {
    i !in h.ended && i !in h.gone && i !in h.late && i !in h.clean
  }

  predicate Ended(h: Past, i: nat, status: Status, abandoned: bool) {
    && i !in h.late && i !in h.clean
    && (abandoned <==> i in h.gone) && (abandoned <==> i !in h.ended)
    && (!abandoned ==> h.ended[i] == status && status in {Passed, Failed, Skipped})
  }

  /** What a worker in the middle of a test knows of it. */
  predicate Knows(c: Setup, x: Worker, h: Past)
    requires PosOk(c, x)
  {
    match x.mode
    case Body(_, _) => Fresh(h, Index(c, x))
    case Cleaning(_, _, _, status, abandoned) => Ended(h, Index(c, x), status, abandoned)
    case Reporting(_, _, verdict, _) => Accounts(h, Index(c, x), verdict)
    case _ => true
  }

  ghost predicate Traced(c: Setup, s: State, h: Past)
    requires Wf(c, s)
  {
    && (forall w :: 0 <= w < |s.workers| ==> Knows(c, s.workers[w], h))
    && (forall p, j :: Handed(c, s.main, p) <= j < |c.Entries(p)| ==> Fresh(h, c.Entries(p)[j]))
    && (forall i :: 0 <= i < |c.tests| && s.board.done[i] ==> Accounts(h, i, s.board.results[i].status))
  }

  /** Nothing that happened to other tests has changed. */
  ghost predicate OnlyAbout(h: Past, h': Past, i: nat) {
    forall j: nat :: j != i ==>
      && (j in h'.ended <==> j in h.ended) && (j in h.ended ==> h'.ended[j] == h.ended[j])
      && (j in h'.gone <==> j in h.gone) && (j in h'.late <==> j in h.late) && (j in h'.clean <==> j in h.clean)
  }

  /** A step of one worker with its test that touches no other test. */
  lemma TracedPut(c: Setup, s: State, t: State, w: nat, h: Past, h': Past)
    requires Wf(c, s) && Taken(c, s) && Traced(c, s, h) && Wf(c, t)
    requires w < |s.workers| == |t.workers| && s.workers[w].mode.Busy() && t.main == s.main
    requires forall v :: 0 <= v < |s.workers| && v != w ==> t.workers[v] == s.workers[v]
    requires var i := Index(c, s.workers[w]);
             && OnlyAbout(h, h', i)
             && (forall j :: 0 <= j < |c.tests| && j != i ==>
                   t.board.done[j] == s.board.done[j] && t.board.results[j] == s.board.results[j])
             && (t.board.done[i] ==> Accounts(h', i, t.board.results[i].status))
    requires Knows(c, t.workers[w], h')
    ensures Traced(c, t, h')
  {
    MarkIsPrivate(c, s, w);
    forall v | 0 <= v < |t.workers| ensures Knows(c, t.workers[v], h') {
      if v != w {
        assert Knows(c, s.workers[v], h);
      }
    }
  }

  /** How one step of a worker bears on what it knows of its test. */
  lemma KnowsNext(c: Setup, s: State, a: Action, h: Past)
    requires Wf(c, s) && OfWorker(a) && Ready(c, s, a) && Knows(c, s.workers[a.w], h)
    ensures Knows(c, WorkerStep(c, s, a).workers[a.w], Noted(c, s, a, h))
  {
  }

  lemma NotedOnly(c: Setup, s: State, a: Action, h: Past)
    requires Wf(c, s) && OfWorker(a) && Ready(c, s, a) && s.workers[a.w].mode.Busy()
    ensures OnlyAbout(h, Noted(c, s, a, h), Index(c, s.workers[a.w]))
  {
  }

  lemma TracedMark(c: Setup, s: State, w: nat, h: Past)
    requires Wf(c, s) && Taken(c, s) && Mutex(s) && Filed(c, s) && Traced(c, s, h)
    requires Ready(c, s, Report(w)) && s.workers[w].mode.step == Mark
    ensures Traced(c, WorkerStep(c, s, Report(w)), h)
  {
    var t, i := WorkerStep(c, s, Report(w)), Index(c, s.workers[w]);
    assert s.workers[w].mode.Holding() && s.board.results[i] == Carried(c, s.workers[w]);
    assert Knows(c, s.workers[w], h);
    TracedPut(c, s, t, w, h, h);
  }

  lemma TracedWrite(c: Setup, s: State, w: nat, h: Past)
    requires Wf(c, s) && Taken(c, s) && Traced(c, s, h)
    requires Ready(c, s, Report(w)) && s.workers[w].mode.step == Write
    ensures Traced(c, WorkerStep(c, s, Report(w)), h)
  {
    var t, i := WorkerStep(c, s, Report(w)), Index(c, s.workers[w]);
    assert !s.board.done[i] && Knows(c, s.workers[w], h);
    TracedPut(c, s, t, w, h, h);
  }

  /** Any other step of a busy worker leaves the record as it is. */
  lemma TracedBusy(c: Setup, s: State, a: Action, h: Past)
    requires Wf(c, s) && Taken(c, s) && Traced(c, s, h) && OfWorker(a) && Ready(c, s, a)
    requires s.workers[a.w].mode.Busy() && (a.Report? ==> s.workers[a.w].mode.step !in {Write, Mark})
    ensures Traced(c, WorkerStep(c, s, a), Noted(c, s, a, h))
  {
    var t, i := WorkerStep(c, s, a), Index(c, s.workers[a.w]);
    assert Knows(c, s.workers[a.w], h);
    KnowsNext(c, s, a, h);
    NotedOnly(c, s, a, h);
    assert t.board.done == s.board.done && t.board.results == s.board.results;
    assert !s.workers[a.w].mode.Reporting? ==> !s.board.done[i];
    assert s.workers[a.w].mode.Reporting? ==> Noted(c, s, a, h) == h;
    TracedPut(c, s, t, a.w, h, Noted(c, s, a, h));
  }

  lemma TracedExit(c: Setup, s: State, w: nat, h: Past)
    requires Wf(c, s) && Traced(c, s, h) && Ready(c, s, WorkerExit(w))
    ensures Traced(c, WorkerStep(c, s, WorkerExit(w)), h)
  {
    var t := WorkerStep(c, s, WorkerExit(w));
    forall v | 0 <= v < |t.workers| ensures Knows(c, t.workers[v], h) {
      assert v != w ==> t.workers[v] == s.workers[v] && Knows(c, s.workers[v], h);
    }
  }

  lemma TracedWorker(c: Setup, s: State, a: Action, h: Past)
    requires Wf(c, s) && Taken(c, s) && Mutex(s) && Filed(c, s) && Traced(c, s, h)
    requires OfWorker(a) && Ready(c, s, a)
    ensures Traced(c, WorkerStep(c, s, a), Noted(c, s, a, h))
  {
    if a.WorkerExit? {
      TracedExit(c, s, a.w, h);
    } else if a.Report? && s.workers[a.w].mode.step == Write {
      TracedWrite(c, s, a.w, h);
    } else if a.Report? && s.workers[a.w].mode.step == Mark {
      TracedMark(c, s, a.w, h);
    } else {
      TracedBusy(c, s, a, h);
    }
  }

  lemma TracedFeed(c: Setup, s: State, w: nat, h: Past)
    requires Wf(c, s) && Traced(c, s, h) && Ready(c, s, FeedTo(w))
    ensures Traced(c, MainStep(c, s, FeedTo(w)), h)
  {
    var t, p, k := MainStep(c, s, FeedTo(w)), s.main.pool, s.main.next;
    assert Handed(c, s.main, p) == k && Fresh(h, c.Entries(p)[k]);
    forall v | 0 <= v < |t.workers| ensures Knows(c, t.workers[v], h) {
      assert v != w ==> t.workers[v] == s.workers[v] && Knows(c, s.workers[v], h);
    }
  }

  /** Steps that hand out nothing, and start idle workers at most. */
  lemma TracedGrow(c: Setup, s: State, t: State, n: nat, q: bool, h: Past)
    requires Wf(c, s) && Traced(c, s, h) && Wf(c, t)
    requires t.workers == s.workers + seq(n, _ => Worker(q, Idle))
    requires t.board.done == s.board.done && t.board.results == s.board.results
    requires forall p :: Handed(c, s.main, p) <= Handed(c, t.main, p)
    ensures Traced(c, t, h)
  {
    forall v | 0 <= v < |t.workers| ensures Knows(c, t.workers[v], h) {
      assert v < |s.workers| ==> t.workers[v] == s.workers[v] && Knows(c, s.workers[v], h);
    }
  }

  lemma TracedMain(c: Setup, s: State, a: Action, h: Past)
    requires Wf(c, s) && Shape(c, s) && Traced(c, s, h) && OfMain(a) && Ready(c, s, a)
    ensures Traced(c, MainStep(c, s, a), h)
  {
    if a.FeedTo? {
      TracedFeed(c, s, a.w, h);
    } else if a.BeginPhase? && |c.Entries(s.main.pool)| > 0 {
      TracedGrow(c, s, MainStep(c, s, a), Width(c, s.main.pool), s.main.pool, h);
    } else {
      TracedGrow(c, s, MainStep(c, s, a), 0, false, h);
    }
  }

  lemma TracedStep(c: Setup, s: State, a: Action, h: Past)
    requires Safe(c, s) && Traced(c, s, h) && Enabled(c, s, a)
    ensures Traced(c, Apply(c, s, a), Noted(c, s, a, h))
  {
    if OfWorker(a) {
      TracedWorker(c, s, a, h);
    } else if OfMain(a) {
      TracedMain(c, s, a, h);
    } else {
      OutsideFrame(c, s, a);
      TracedGrow(c, s, Apply(c, s, a), 0, false, h);
    }
  }

  // ----- What `Run` hands back -----

  /** `picks` names, in ascending order, the places on record `out` stands for. */
  ghost predicate OnRecord(c: Setup, s: State, out: seq<Result>, picks: seq<nat>)
    requires Wf(c, s)
  {
    && |picks| == |out|
    && (forall k :: 0 <= k < |picks| ==>
          picks[k] < |c.tests| && s.board.done[picks[k]] && s.board.results[picks[k]] == out[k])
    && (forall j, k :: 0 <= j < k < |picks| ==> picks[j] < picks[k])
  }

  ghost predicate Kept(c: Setup, s: State)
    requires Wf(c, s)
  {
    s.main.Returned? ==> exists picks :: OnRecord(c, s, s.main.out, picks)
  }

  /** What is done stays done, with its result. */
  lemma DoneStays(c: Setup, s: State, a: Action)
    requires Wf(c, s) && Taken(c, s) && Enabled(c, s, a)
    ensures var t := Apply(c, s, a);
            forall i :: 0 <= i < |c.tests| && s.board.done[i] ==>
              t.board.done[i] && t.board.results[i] == s.board.results[i]
  {
    if !OfMain(a) && !OfWorker(a) {
      OutsideFrame(c, s, a);
    } else if OfWorker(a) && a.Report? {
      assert s.board.done[Index(c, s.workers[a.w])] == Marked(s.workers[a.w].mode);
    }
  }

  lemma KeptReturn(c: Setup, s: State)
    requires Wf(c, s) && Ready(c, s, Return)
    ensures Kept(c, MainStep(c, s, Return))
  {
    var t := MainStep(c, s, Return);
    var picks := CollectedSelects(s.board, |c.tests|);
    forall k | 0 <= k < |picks| ensures picks[k] < |c.tests| && s.board.done[picks[k]] {
      assert picks[k] in picks;
    }
    assert OnRecord(c, t, t.main.out, picks);
  }

  lemma KeptStep(c: Setup, s: State, a: Action)
    requires Safe(c, s) && Kept(c, s) && Enabled(c, s, a)
    ensures Kept(c, Apply(c, s, a))
  {
    var t := Apply(c, s, a);
    if a.Return? {
      KeptReturn(c, s);
    } else if t.main.Returned? {
      ReturnedStays(c, s, a);
      DoneStays(c, s, a);
      var picks :| OnRecord(c, s, s.main.out, picks);
      assert OnRecord(c, t, t.main.out, picks);
    }
  }

  lemma ReturnedStays(c: Setup, s: State, a: Action)
    requires Wf(c, s) && Enabled(c, s, a) && !a.Return? && Apply(c, s, a).main.Returned?
    ensures Apply(c, s, a).main == s.main
  {
    if !OfMain(a) && !OfWorker(a) {
      OutsideFrame(c, s, a);
    }
  }

  lemma {:induction false} TracedRun(c: Setup, s: State, acts: seq<Action>, t: State, h: Past)
    requires Safe(c, s) && Traced(c, s, h) && Kept(c, s) && Leads(c, s, acts, t)
    ensures Safe(c, t) && Traced(c, t, History(c, s, acts, h)) && Kept(c, t)
    decreases |acts|
  {
    if acts != [] {
      SafeStep(c, s, acts[0]);
      TracedStep(c, s, acts[0], h);
      KeptStep(c, s, acts[0]);
      TracedRun(c, Apply(c, s, acts[0]), acts[1..], t, Noted(c, s, acts[0], h));
    }
  }

  /** In every reached state, the status on record for a test that is done follows
      from what happened: it passed exactly when its body ended Passed and its
      cleanups ended unmarked, was skipped exactly when its body was, timed out
      exactly when it was abandoned or failed late, and failed otherwise. */
  lemma VerdictsMean(c: Setup, acts: seq<Action>, s: State)
    requires Planned(c) && Reached(c, acts, s)
    ensures Wf(c, s) && Traced(c, s, PastOf(c, acts))
    ensures forall i :: 0 <= i < |c.tests| && s.board.done[i] ==>
              Accounts(PastOf(c, acts), i, s.board.results[i].status)
  {
    SafeInit(c);
    TracedRun(c, Init(c), acts, s, NOTHING);
  }

  /** So it is with every result `Run` returns, each standing for the test of its
      place; a run nobody cut short returns one for every test, in place. */
  lemma ReturnedVerdicts(c: Setup, acts: seq<Action>, s: State) returns (picks: seq<nat>)
    requires Planned(c) && Reached(c, acts, s) && s.main.Returned?
    ensures Names(c, s.main.out, picks)
    ensures !s.main.cut ==> |picks| == |c.tests| && forall k :: 0 <= k < |picks| ==> picks[k] == k
    ensures forall k :: 0 <= k < |picks| ==> Accounts(PastOf(c, acts), picks[k], s.main.out[k].status)
  {
    SafeInit(c);
    TracedRun(c, Init(c), acts, s, NOTHING);
    picks :| OnRecord(c, s, s.main.out, picks);
    if !s.main.cut {
      AllPicked(picks, |c.tests|);
    }
  }

  /** As many ascending places as there are. */
  lemma {:induction false} AllPicked(picks: seq<nat>, n: nat)
    requires |picks| == n && forall k :: 0 <= k < n ==> picks[k] < n
    requires forall j, k :: 0 <= j < k < n ==> picks[j] < picks[k]
    ensures forall k :: 0 <= k < n ==> picks[k] == k
  {
    if n > 0 {
      Below(picks, n - 1);
      assert picks[n - 1] == n - 1;
      AllPicked(picks[..n - 1], n - 1);
    }
  }

  lemma {:induction false} Below(picks: seq<nat>, k: nat)
    requires k < |picks| && forall i, j :: 0 <= i < j < |picks| ==> picks[i] < picks[j]
    ensures picks[k] >= k
  {
    if k > 0 {
      Below(picks, k - 1);
    }
  }
}
