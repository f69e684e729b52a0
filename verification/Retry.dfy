/** The backoff loop around setup and teardown calls (retry.go), in nanoseconds. */
module Retry {

  const MILLISECOND: nat := 1_000_000
  const BUDGET: nat := 30_000 * MILLISECOND
  const FIRST_DELAY: nat := 50 * MILLISECOND
  const DELAY_CAP: nat := 4_000 * MILLISECOND

  /** What one call of the retried function gives: nothing wrong, or a status and a code. */
  datatype Outcome = Success | Failure(status: int, code: string)

  predicate Throttled(o: Outcome) {
    o.Failure? && (o.status == 503 || o.code == "SlowDown" || o.code == "ServiceUnavailable")
  }

  /** What the outside decides, by attempt: the call's outcome and duration, the
      jitter drawn, how late the timer fires, and whether the wait is left for a
      cancelled context. */
  datatype World = World(outcome: nat -> Outcome, took: nat -> nat, jitter: nat -> nat,
                         late: nat -> nat, cancelled: nat -> bool)

  /** The delay before jitter after attempt `k`. */
  function Delay(k: nat): nat {
    if k == 0 then FIRST_DELAY
    else
      var d := Delay(k - 1);
      if d < DELAY_CAP then d * 2 else d
  }

  ghost predicate Drawn(w: World) {
    forall k {:trigger w.jitter(k)} :: 0 <= k ==> w.jitter(k) < Delay(k)
  }

  /** The least time the first `k` waits can take. */
  function Waited(k: nat): nat {
    if k == 0 then 0 else Waited(k - 1) + Delay(k - 1)
  }

  /** Doubling stops at 6.4 s. */
  lemma DelayTable()
    ensures Delay(1) == 100 * MILLISECOND && Delay(2) == 200 * MILLISECOND && Delay(3) == 400 * MILLISECOND
    ensures Delay(4) == 800 * MILLISECOND && Delay(5) == 1_600 * MILLISECOND && Delay(6) == 3_200 * MILLISECOND
    ensures Delay(7) == 6_400 * MILLISECOND
  {
    assert Delay(2) == 200 * MILLISECOND;
    assert Delay(4) == 800 * MILLISECOND;
  }

  lemma {:induction false} DelayBound(k: nat)
    ensures FIRST_DELAY <= Delay(k) <= 6_400 * MILLISECOND
    ensures k >= 7 ==> Delay(k) == 6_400 * MILLISECOND
  {
    DelayTable();
    if k > 7 {
      DelayBound(k - 1);
    } else {
      assert k in {0, 1, 2, 3, 4, 5, 6, 7};
    }
  }

  /** Eleven waits already exceed the budget; ten need not. */
  lemma ElevenWaits()
    ensures Waited(10) == 25_550 * MILLISECOND <= BUDGET
    ensures Waited(11) == 31_950 * MILLISECOND > BUDGET
  {
    DelayTable();
    DelayBound(8);
    DelayBound(9);
    DelayBound(10);
    assert Waited(4) == 750 * MILLISECOND;
    assert Waited(8) == 12_750 * MILLISECOND;
  }

  /** The time at which attempt `k` ends, given that all before it were retried. */
  function EndOf(w: World, k: nat): nat {
    if k == 0 then w.took(0)
    else EndOf(w, k - 1) + Delay(k - 1) + w.jitter(k - 1) + w.late(k - 1) + w.took(k)
  }

  /** The loop waits after attempt `k`. */
  predicate WaitsAfter(w: World, k: nat) {
    Throttled(w.outcome(k)) && EndOf(w, k) <= BUDGET
  }

  /** The loop waits after attempt `k` and goes round again. */
  predicate Retried(w: World, k: nat) {
    WaitsAfter(w, k) && !w.cancelled(k)
  }

  lemma {:induction false} EndAfterWaits(w: World, k: nat)
    ensures EndOf(w, k) >= Waited(k)
  {
    if k > 0 {
      EndAfterWaits(w, k - 1);
    }
  }

  /** An attempt that ends within the budget is one of the first eleven. */
  lemma NotTheTwelfth(w: World, k: nat)
    requires EndOf(w, k) <= BUDGET
    ensures k <= 10
  {
    EndAfterWaits(w, k);
    if k >= 11 {
      WaitedGrows(11, k);
      ElevenWaits();
    }
  }

  /** A wait lies between its delay and twice that, and stays under 12.8 s. */
  predicate WaitOk(k: nat, wait: nat) {
    Delay(k) <= wait < 2 * Delay(k) <= 12_800 * MILLISECOND
  }

  lemma WaitFits(w: World, k: nat)
    requires Drawn(w)
    ensures WaitOk(k, Delay(k) + w.jitter(k))
  {
    DelayBound(k);
  }

  /** The waits so far: each in bounds, and each after an attempt that calls for one. */
  ghost predicate InBounds(w: World, waits: seq<nat>) {
    forall k :: 0 <= k < |waits| ==> WaitOk(k, waits[k]) && WaitsAfter(w, k)
  }

  ghost predicate AllRetried(w: World, n: nat) {
    forall k :: 0 <= k < n ==> Retried(w, k)
  }

  /** What is known when attempt `k` has to be followed by a wait. */
  lemma NextWait(w: World, k: nat, waits: seq<nat>)
    requires Drawn(w) && InBounds(w, waits) && |waits| == k && WaitsAfter(w, k)
    ensures k <= 10 && InBounds(w, waits + [Delay(k) + w.jitter(k)])
  {
    WaitFits(w, k);
    NotTheTwelfth(w, k);
  }

  lemma NextAttempt(w: World, k: nat)
    requires AllRetried(w, k) && Retried(w, k)
    ensures AllRetried(w, k + 1)
    ensures EndOf(w, k + 1) == EndOf(w, k) + (Delay(k) + w.jitter(k)) + w.late(k) + w.took(k + 1)
  {
  }

  /** The replies by which a server asks for less load. */
  predicate AsksForLess(o: Outcome) {
    match o
    case Success => false
    case Failure(status, code) => status == 503 || code in ["SlowDown", "ServiceUnavailable"]
  }

  /** The loop goes round again exactly when the reply is one of those, no more
      than 30 s have passed, and the wait is not left. */
  lemma RetriedMeans(w: World, k: nat)
    ensures Retried(w, k) <==> AsksForLess(w.outcome(k)) && EndOf(w, k) <= 30_000_000_000 && !w.cancelled(k)
  {
  }

  /** Runs the call until it succeeds, fails otherwise than by throttling, the
      budget is spent, or the wait is cut short. */
  method RetryThrottled(w: World) returns (result: Outcome, calls: nat, waits: seq<nat>)
    requires Drawn(w)
    ensures 1 <= calls <= 12
    ensures result == w.outcome(calls - 1)
    ensures AllRetried(w, calls - 1) && !Retried(w, calls - 1)
    ensures calls - 1 <= |waits| <= calls && InBounds(w, waits)
    ensures |waits| == calls ==> w.cancelled(calls - 1)
  {
    var elapsed, delay, attempt := 0, FIRST_DELAY, 0;
    waits := [];
    while true
      invariant attempt <= 11 && |waits| == attempt && delay == Delay(attempt)
      invariant elapsed + w.took(attempt) == EndOf(w, attempt)
      invariant AllRetried(w, attempt) && InBounds(w, waits)
      decreases 12 - attempt
    {
      result := w.outcome(attempt);
      elapsed := elapsed + w.took(attempt);
      calls := attempt + 1;
      if result == Success || !Throttled(result) || elapsed > BUDGET {
        return;
      }
      NextWait(w, attempt, waits);
      var wait := delay + w.jitter(attempt);
      if delay < DELAY_CAP {
        delay := delay * 2;
      }
      waits := waits + [wait];
      if w.cancelled(attempt) {
        return;
      }
      NextAttempt(w, attempt);
      elapsed := elapsed + wait + w.late(attempt);
      attempt := attempt + 1;
    }
  }

  /** Twelve is reached: a server that always throttles at once, whichever way it
      says so, with no jitter. */
  lemma TwelveHappens(reply: Outcome) returns (w: World)
    requires AsksForLess(reply)
    ensures Drawn(w) && forall k: nat :: w.outcome(k) == reply
    ensures AllRetried(w, 11) && !Retried(w, 11)
  {
    w := World(_ => reply, _ => 0, _ => 0, _ => 0, _ => false);
    forall k: nat ensures Delay(k) > 0 && EndOf(w, k) == Waited(k) {
      Exact(w, k);
    }
    forall k | 0 <= k < 11 ensures Retried(w, k) {
      ElevenWaits();
      WaitedGrows(k, 10);
    }
    ElevenWaits();
  }

  lemma {:induction false} Exact(w: World, k: nat)
    requires forall j :: 0 <= j ==> w.took(j) == 0 && w.jitter(j) == 0 && w.late(j) == 0
    ensures Delay(k) > 0 && EndOf(w, k) == Waited(k)
  {
    if k > 0 {
      Exact(w, k - 1);
    }
  }

  lemma {:induction false} WaitedGrows(j: nat, k: nat)
    requires j <= k
    ensures Waited(j) <= Waited(k)
    decreases k
  {
    if j < k {
      WaitedGrows(j, k - 1);
    }
  }
}
