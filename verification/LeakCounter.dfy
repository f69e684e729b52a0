/** What the leak counter counts, against the tests that were abandoned. */
module LeakCounter {
  import opened Tests
  import opened Scheduler
  import opened Protocol
  import opened ProtocolErrors
  import opened ProtocolAlarm
  import opened Verdicts

  /** One of the two, and not both. */
  predicate Blamed(i: nat, gone: set<nat>, late: set<nat>) {
    (i in gone) != (i in late)
  }

  /** Each test the counter has counted was abandoned or ended Failed with its
      context done, and not both. */
  lemma CountedIsBlamed(c: Setup, acts: seq<Action>, s: State)
    requires Planned(c) && Reached(c, acts, s)
    ensures Wf(c, s)
    ensures forall i :: i in TimedOutTests(c, s) ==> Blamed(i, PastOf(c, acts).gone, PastOf(c, acts).late)
  {
    VerdictsMean(c, acts, s);
    var h := PastOf(c, acts);
    var gone, late := h.gone, h.late;
    forall i | i in TimedOutTests(c, s) ensures Blamed(i, gone, late) {
      if w: nat :| Counts(c, s, w, i) {
        assert PosOk(c, s.workers[w]) && Knows(c, s.workers[w], h);
      }
    }
  }

  lemma PartSizes(all: set<nat>, gone: set<nat>, late: set<nat>)
    requires forall i :: i in all ==> Blamed(i, gone, late)
    ensures |all| == |all * gone| + |all * late|
    ensures |all| == |all * gone| <==> all * late == {}
  {
    assert all == all * gone + all * late && (all * gone) * (all * late) == {};
    if all * late != {} {
      var i :| i in all * late;
      assert |all * late| > 0;
    }
  }

  /** In every reached state, the counter is the number of abandoned tests it has
      counted exactly when none of the tests it has counted ended Failed with its
      context done. */
  lemma CountsAbandonedIff(c: Setup, acts: seq<Action>, s: State)
    requires Planned(c) && Reached(c, acts, s)
    ensures Wf(c, s)
    ensures var gone, late := PastOf(c, acts).gone, PastOf(c, acts).late;
            s.board.leaked == |TimedOutTests(c, s) * gone| <==> TimedOutTests(c, s) * late == {}
  {
    LeaksCounted(c, acts, s);
    CountedIsBlamed(c, acts, s);
    PartSizes(TimedOutTests(c, s), PastOf(c, acts).gone, PastOf(c, acts).late);
  }

  /** One serial worker in a run somebody has cancelled. */
  function Cancelled(c: Setup, m: Mode, b: Board): State
    requires c.runner.stallTimeout > 0
  {
    Solo(0, m, 1, None, Interval(c.runner), b, []).(cancelled := true)
  }

  predicate NoneAbandons(acts: seq<Action>) {
    forall i :: 0 <= i < |acts| ==> !acts[i].Abandon?
  }

  /** A run with a limit of one that was interrupted: the counter stands at one
      and the limit is reached, though no test has been abandoned. */
  lemma InterruptCounts(c: Setup) returns (acts: seq<Action>, s: State)
    requires LateSetup(c) && c.runner.maxLeaked == 1
    ensures Path(c, Init(c), acts, s) && NoneAbandons(acts)
    ensures s.board.leaked == 1 && s.board.err == Some(TooManyLeaked(1))
  {
    var b, rep := NewBoard(3, 0), Reporting(0, 0, TimedOut, Store);
    var s0 := Solo(0, Body(0, 0), 1, None, Interval(c.runner), b, []);
    Opening(c);
    acts := [BeginPhase] + [FeedTo(0)];
    var ended := InterruptEnds(c, b);
    Chain(c, Init(c), acts, s0, ended, Cancelled(c, rep, b));
    acts := acts + ended;
    var more;
    more, s := InterruptReports(c, rep, b);
    Chain(c, Init(c), acts, Cancelled(c, rep, b), more, s);
    acts := acts + more;
  }

  lemma InterruptEnds(c: Setup, b: Board) returns (acts: seq<Action>)
    requires LateSetup(c) && SoloOk(c, b)
    ensures Path(c, Solo(0, Body(0, 0), 1, None, Interval(c.runner), b, []), acts,
                 Cancelled(c, Reporting(0, 0, TimedOut, Store), b))
    ensures NoneAbandons(acts)
  {
    var s0 := Solo(0, Body(0, 0), 1, None, Interval(c.runner), b, []);
    var s1, s2 := Cancelled(c, Body(0, 0), b), Cancelled(c, Cleaning(0, 0, 0, Failed, false), b);
    Nowhere(c, s0);
    Then(c, s0, [], s0, Cancel, s1);
    acts := [] + [Cancel];
    Then(c, s0, acts, s1, BodyEnds(0, Failed), s2);
    acts := acts + [BodyEnds(0, Failed)];
    Then(c, s0, acts, s2, CleanupEnds(0, false), Cancelled(c, Reporting(0, 0, TimedOut, Store), b));
    acts := acts + [CleanupEnds(0, false)];
  }

  lemma InterruptReports(c: Setup, rep: Mode, b: Board) returns (acts: seq<Action>, s: State)
    requires LateSetup(c) && c.runner.maxLeaked == 1 && SoloOk(c, b) && b.leaked == 0 && b.err == None
    requires rep.Reporting? && rep.pos == 0 && rep.step == Store && rep.verdict == TimedOut
    ensures Path(c, Cancelled(c, rep, b), acts, s) && NoneAbandons(acts)
    ensures s.board.leaked == 1 && s.board.err == Some(TooManyLeaked(1))
  {
    var s0, b1 := Cancelled(c, rep, b), b.Stamp(0);
    var s1, s2 := Cancelled(c, rep.(step := Leak), b1), Cancelled(c, rep.(step := Judge(1)), b1.Bump());
    s := Cancelled(c, rep.(step := Lock), b1.Bump().Judge(1, 1));
    Nowhere(c, s0);
    Then(c, s0, [], s0, Report(0), s1);
    acts := [] + [Report(0)];
    Then(c, s0, acts, s1, Report(0), s2);
    acts := acts + [Report(0)];
    Then(c, s0, acts, s2, Report(0), s);
    acts := acts + [Report(0)];
  }

  /** Such a run exists, with a timeout of 20 s. */
  lemma InterruptedRun() returns (acts: seq<Action>, s: State)
    ensures var c := Plan(Runner(1, 20 * SECOND, 60 * SECOND, 120 * SECOND, 1, 0), LATE);
            && Reached(c, acts, s) && NoneAbandons(acts)
            && s.board.leaked == 1 && s.board.err == Some(TooManyLeaked(1))
  {
    var r := Runner(1, 20 * SECOND, 60 * SECOND, 120 * SECOND, 1, 0);
    LatePlan(r);
    acts, s := InterruptCounts(Plan(r, LATE));
    assert Unfold(0);
  }
}
