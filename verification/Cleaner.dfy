/** Emptying a bucket (fixture.go): one paginated pass that deletes while it
    pages, and the two-phase cleanup around it. */
module Cleaner {
  import opened BucketServer
  import Retry

  const MINUTE: nat := 60_000_000_000

  datatype Error = NoError | CallFailed(throttled: bool) | LockedTooLong | Interrupted

  /** Nothing went wrong, or the last call failed. */
  predicate EndsWell(net: Net, s: Server, t: Server, err: Error) {
    && t.calls >= s.calls
    && (err == NoError
        || (t.calls > s.calls && net.fault(t.calls - 1) && err == CallFailed(net.throttled(t.calls - 1))))
  }

  /** What would refuse even now, bypass and all, is still there. */
  ghost predicate Spares(net: Net, s: Server, t: Server) {
    forall e :: e in s.entries && Refuses(e, Now(net, t), true) ==> e in t.entries
  }

  lemma SparesChain(net: Net, s: Server, t: Server, u: Server)
    requires Spares(net, s, t) && Spares(net, t, u) && Now(net, t) <= Now(net, u)
    ensures Spares(net, s, u)
  {
    forall e | e in s.entries && Refuses(e, Now(net, u), true) ensures e in u.entries {
      assert Refuses(e, Now(net, t), true);
    }
  }

  function Positions(vs: seq<Version>): (ids: seq<nat>)
    ensures |ids| == |vs| && forall i :: 0 <= i < |vs| ==> ids[i] == vs[i].pos
    ensures forall p :: p in ids <==> exists v :: v in vs && v.pos == p
  {
    if vs == [] then [] else [vs[0].pos] + Positions(vs[1..])
  }

  function Identifiers(rs: seq<Refusal>): (ids: seq<nat>)
    ensures |ids| == |rs| && forall i :: 0 <= i < |rs| ==> ids[i] == rs[i].pos
    ensures forall p :: p in ids <==> exists r :: r in rs && r.pos == p
  {
    if rs == [] then [] else [rs[0].pos] + Identifiers(rs[1..])
  }

  /** The date that refusing to delete `v` at `t`, bypass and all, makes known. */
  function KnownDate(v: Version, t: nat): nat {
    if Locked(v, t, true) && v.mode != Unlocked then v.until else 0
  }

  /** The date a refusal leads to when it is looked up. */
  function DateOf(es: seq<Version>, r: Refusal): nat {
    if r.code == AccessDenied then RetentionOf(es, r.pos) else 0
  }

  method RetainUntil(net: Net, s: Server, failed: Refusal) returns (t: Server, until: nat)
    requires Sane(net)
    ensures t == s.(calls := s.calls + if failed.code == AccessDenied then 1 else 0)
    ensures until == if net.fault(s.calls) then 0 else DateOf(s.entries, failed)
  {
    if failed.code != AccessDenied {
      return s, 0;
    }
    t := Used(s);
    match GetRetention(net, s, failed.pos) {
      case Ok(date) => until := date;
      case Fault => until := 0;
    }
  }

  /** What a pass that began at `s0` has done once its marker is at `m`: later
      entries are untouched, and earlier ones are left exactly where the last
      attempt on them, with bypass, was refused. `at` dates those attempts. */
  ghost predicate Passed(net: Net, s0: Server, s: Server, m: int, at: map<nat, nat>) {
    && Sorted(s0.entries) && Sorted(s.entries)
    && s.calls >= s0.calls && s.slept == s0.slept
    && (forall e :: e in s.entries ==> e in s0.entries)
    && (forall e :: e in s0.entries && e.pos > m ==> e in s.entries)
    && (forall e :: e in s0.entries && e.pos <= m ==>
          && e.pos in at && Now(net, s0) <= at[e.pos] <= Now(net, s)
          && (e in s.entries <==> Refuses(e, at[e.pos], true)))
  }

  /** The date heard of for an entry that is left: none if its lookup failed. */
  function Heard(net: Net, e: Version, at: map<nat, nat>, asked: map<nat, nat>): nat
    requires e.pos in at && e.pos in asked
  {
    if net.fault(asked[e.pos]) then 0 else KnownDate(e, at[e.pos])
  }

  /** `until` is the latest date heard of for what is left up to the marker.
      `asked` is the call in which the retention of an entry was looked up. */
  ghost predicate Latest(net: Net, from: nat, s: Server, m: int, at: map<nat, nat>, asked: map<nat, nat>, until: nat) {
    && (forall e :: e in s.entries && e.pos <= m ==>
          && e.pos in at && e.pos in asked && Heard(net, e, at, asked) <= until
          && (Locked(e, at[e.pos], true) ==> from <= asked[e.pos] < s.calls))
    && (until > 0 ==>
          exists e :: e in s.entries && e.pos <= m && e.pos in at && e.pos in asked
                      && Heard(net, e, at, asked) == until)
  }

  /** Left because of a lock, and looked up. */
  predicate LookedUp(e: Version, at: map<nat, nat>, asked: map<nat, nat>) {
    e.pos in at && e.pos in asked && Locked(e, at[e.pos], true)
  }

  /** Each of them was looked up in a call of its own. */
  ghost predicate Apart(s: Server, m: int, at: map<nat, nat>, asked: map<nat, nat>) {
    forall e, f :: e in s.entries && f in s.entries && e.pos < f.pos <= m
                   && LookedUp(e, at, asked) && LookedUp(f, at, asked) ==>
      asked[e.pos] != asked[f.pos]
  }

  /** What a page's two attempts do: nothing outside the page, and inside it
      exactly what refuses at `when` stays. */
  ghost predicate Deleted(es: seq<Version>, left: seq<Version>, ids: seq<nat>, when: nat) {
    && Sorted(left)
    && (forall e :: e in left ==> e in es)
    && (forall e :: e in es && e.pos !in ids ==> e in left)
    && (forall e :: e in es && e.pos in ids ==> (e in left <==> Refuses(e, when, true)))
  }

  /** `refused` says of each entry of the page that is left, and of no other, why. */
  ghost predicate Explains(left: seq<Version>, ids: seq<nat>, when: nat, refused: seq<Refusal>) {
    && (forall e :: e in left && e.pos in ids ==> Refusal(e.pos, Reason(e, when, true)) in refused)
    && (forall r :: r in refused ==>
          exists e :: e in left && e.pos == r.pos && e.pos in ids && r.code == Reason(e, when, true))
    && Once(refused)
  }

  // ----- One page -----

  /** What an attempt leaves, what it refused, and the error. */
  datatype Attempt = Attempt(server: Server, refused: seq<Refusal>, err: Error)

  /** One batch (`deleteBatch`). */
  ghost function Batch(net: Net, s: Server, ids: seq<nat>, bypass: bool): Attempt {
    var (t, reply) := DeleteObjects(net, s, ids, bypass);
    match reply
    case Fault => Attempt(t, [], CallFailed(net.throttled(s.calls)))
    case Ok(errors) => Attempt(t, errors, NoError)
  }

  /** The batch of a page, and what it refused once more with bypass. */
  ghost function Tried(net: Net, s: Server, ids: seq<nat>): Attempt {
    if ids == [] then Attempt(s, [], NoError)
    else
      var first := Batch(net, s, ids, false);
      if first.err != NoError || first.refused == [] then first
      else Batch(net, first.server, Identifiers(first.refused), true)
  }

  /** The time of the last of those attempts. */
  ghost function LastTry(net: Net, s: Server, ids: seq<nat>): nat {
    var first := Batch(net, s, ids, false);
    if ids == [] || first.err != NoError || first.refused == [] then Now(net, s) else Now(net, first.server)
  }

  method DeleteBatch(net: Net, s: Server, ids: seq<nat>, bypass: bool)
    returns (t: Server, refused: seq<Refusal>, err: Error)
    ensures Attempt(t, refused, err) == Batch(net, s, ids, bypass)
  {
    var reply;
    t, reply := DeleteObjects(net, s, ids, bypass).0, DeleteObjects(net, s, ids, bypass).1;
    match reply {
      case Fault => refused, err := [], CallFailed(net.throttled(s.calls));
      case Ok(errors) => refused, err := errors, NoError;
    }
  }

  /** One page: delete, retry the refused with bypass, and say what is still refused. */
  method DeletePage(net: Net, s: Server, ids: seq<nat>) returns (t: Server, refused: seq<Refusal>, err: Error)
    ensures Attempt(t, refused, err) == Tried(net, s, ids)
  {
    t, refused, err := s, [], NoError;
    if |ids| == 0 {
      return;
    }
    t, refused, err := DeleteBatch(net, s, ids, false);
    if err != NoError {
      return;
    }
    if |refused| > 0 {
      t, refused, err := DeleteBatch(net, t, Identifiers(refused), true);
    }
  }

  /** From `s` to `t` nothing is gone but entries of `ids` that would not refuse. */
  ghost predicate Within(net: Net, s: Server, t: Server, ids: seq<nat>) {
    && t.calls >= s.calls && t.slept == s.slept && Sorted(t.entries) && Spares(net, s, t)
    && (forall e :: e in t.entries ==> e in s.entries)
    && (forall e :: e in s.entries && e.pos !in ids ==> e in t.entries)
  }

  /** Tried until `when`, the page is left with exactly what refuses then, and `b`
      names it. Should a call fail, nothing else is gone than entries of the page
      that would not refuse. */
  ghost predicate Settled(net: Net, s: Server, ids: seq<nat>, b: Attempt, when: nat) {
    && EndsWell(net, s, b.server, b.err) && Within(net, s, b.server, ids)
    && Now(net, s) <= when <= Now(net, b.server)
    && (b.err == NoError ==> Deleted(s.entries, b.server.entries, ids, when)
                             && Explains(b.server.entries, ids, when, b.refused))
  }

  /** Two attempts settle the page as of the last of them. */
  lemma TriedMeans(net: Net, s: Server, ids: seq<nat>)
    requires Sane(net) && Sorted(s.entries) && NoRepeats(ids)
    ensures Settled(net, s, ids, Tried(net, s, ids), LastTry(net, s, ids))
  {
    var first := Batch(net, s, ids, false);
    if ids == [] {
    } else if first.err != NoError || first.refused == [] {
      TriedOnce(net, s, ids, first);
    } else {
      TriedTwice(net, s, ids, first, Batch(net, first.server, Identifiers(first.refused), true));
    }
  }

  lemma TriedOnce(net: Net, s: Server, ids: seq<nat>, b: Attempt)
    requires Sane(net) && Sorted(s.entries) && NoRepeats(ids)
    requires b == Batch(net, s, ids, false) && b.refused == []
    ensures Settled(net, s, ids, b, Now(net, s))
  {
    BatchSpares(net, s, b.server, ids, false);
    if b.err == NoError {
      OneAttempt(s.entries, ids, Now(net, s));
    }
  }

  lemma TriedTwice(net: Net, s: Server, ids: seq<nat>, first: Attempt, b: Attempt)
    requires Sane(net) && Sorted(s.entries) && NoRepeats(ids)
    requires first == Batch(net, s, ids, false) && first.err == NoError
    requires b == Batch(net, first.server, Identifiers(first.refused), true)
    ensures Settled(net, s, ids, b, Now(net, first.server))
  {
    TwiceWithin(net, s, ids, first, b);
    if b.err == NoError {
      TwiceDeleted(net, s, ids, first, b);
    }
  }

  lemma TwiceWithin(net: Net, s: Server, ids: seq<nat>, first: Attempt, b: Attempt)
    requires Sane(net) && Sorted(s.entries)
    requires first == Batch(net, s, ids, false) && first.err == NoError
    requires b == Batch(net, first.server, Identifiers(first.refused), true)
    ensures Within(net, s, b.server, ids) && Now(net, s) <= Now(net, first.server) <= Now(net, b.server)
  {
    var again := Identifiers(first.refused);
    BatchSpares(net, s, first.server, ids, false);
    RetriesOnly(s.entries, ids, Now(net, s), again);
    BatchSpares(net, first.server, b.server, again, true);
    WithinBoth(net, s, first.server, b.server, ids, again);
  }

  lemma TwiceDeleted(net: Net, s: Server, ids: seq<nat>, first: Attempt, b: Attempt)
    requires Sane(net) && Sorted(s.entries) && NoRepeats(ids)
    requires first == Batch(net, s, ids, false) && first.err == NoError
    requires b == Batch(net, first.server, Identifiers(first.refused), true) && b.err == NoError
    ensures Deleted(s.entries, b.server.entries, ids, Now(net, first.server))
    ensures Explains(b.server.entries, ids, Now(net, first.server), b.refused)
  {
    NowGrows(net, s, first.server);
    TwoAttempts(s.entries, ids, Now(net, s), Identifiers(first.refused), Now(net, first.server));
  }

  lemma WithinBoth(net: Net, s: Server, t: Server, u: Server, ids: seq<nat>, again: seq<nat>)
    requires Within(net, s, t, ids) && Within(net, t, u, again) && Now(net, t) <= Now(net, u)
    requires forall p :: p in again ==> p in ids
    ensures Within(net, s, u, ids)
  {
    SparesChain(net, s, t, u);
  }

  /** The retry names nothing that the first attempt did not. */
  lemma RetriesOnly(es: seq<Version>, ids: seq<nat>, first: nat, again: seq<nat>)
    requires Sorted(es) && again == Identifiers(Refused(es, ids, first, false))
    ensures forall p :: p in again ==> p in ids
  {
    RefusedMeans(es, ids, first, false);
  }

  /** A batch deletes nothing that refuses, and nothing it does not name. */
  lemma BatchSpares(net: Net, s: Server, t: Server, ids: seq<nat>, bypass: bool)
    requires Sane(net) && Sorted(s.entries) && t == DeleteObjects(net, s, ids, bypass).0
    ensures Within(net, s, t, ids) && Now(net, s) <= Now(net, t)
  {
    KeptMeans(s.entries, ids, Now(net, s), bypass);
  }

  lemma OneAttempt(es: seq<Version>, ids: seq<nat>, when: nat)
    requires Sorted(es) && NoRepeats(ids) && Refused(es, ids, when, false) == []
    ensures Deleted(es, Kept(es, ids, when, false), ids, when)
    ensures Explains(Kept(es, ids, when, false), ids, when, [])
  {
    KeptMeans(es, ids, when, false);
    RefusedMeans(es, ids, when, false);
    forall e | e in es && e.pos in ids ensures !Refuses(e, when, false) {
      assert Refuses(e, when, false) ==> Refusal(e.pos, Reason(e, when, false)) in Refused(es, ids, when, false);
    }
  }

  /** What the retry with bypass does to what the first attempt left. */
  lemma TwoAttempts(es: seq<Version>, ids: seq<nat>, first: nat, again: seq<nat>, when: nat)
    requires Sorted(es) && NoRepeats(ids) && first <= when && again == Identifiers(Refused(es, ids, first, false))
    ensures var mid := Kept(es, ids, first, false);
            Deleted(es, Kept(mid, again, when, true), ids, when)
            && Explains(Kept(mid, again, when, true), ids, when, Refused(mid, again, when, true))
  {
    hide Kept, Refused;
    var mid := Kept(es, ids, first, false);
    KeptMeans(es, ids, first, false);
    RefusedMeans(es, ids, first, false);
    KeptMeans(mid, again, when, true);
    RefusedMeans(mid, again, when, true);
    RefusedOnce(es, ids, first, false);
    RefusedOnce(mid, again, when, true);
    forall e | e in mid ensures e.pos in again <==> e.pos in ids {
      Repeats(es, ids, first, again, e);
    }
  }

  lemma Repeats(es: seq<Version>, ids: seq<nat>, first: nat, again: seq<nat>, e: Version)
    requires Sorted(es) && again == Identifiers(Refused(es, ids, first, false))
    requires e in Kept(es, ids, first, false)
    ensures e.pos in again <==> e.pos in ids
  {
    KeptMeans(es, ids, first, false);
    RefusedMeans(es, ids, first, false);
    var refused := Refused(es, ids, first, false);
    if e.pos in ids {
      assert Refusal(e.pos, Reason(e, first, false)) in refused;
    }
    if e.pos in again {
      var r :| r in refused && r.pos == e.pos;
    }
  }

  /** How many of the refusals are looked up. */
  function Lookups(refused: seq<Refusal>): nat {
    if refused == [] then 0
    else
      var n := |refused| - 1;
      Lookups(refused[..n]) + if refused[n].code == AccessDenied then 1 else 0
  }

  /** The call in which the j-th refusal is looked up, when the first is `from`. */
  function LookupCall(refused: seq<Refusal>, from: nat, j: nat): nat
    requires j <= |refused|
  {
    from + Lookups(refused[..j])
  }

  /** What the j-th refusal adds: nothing if it is not looked up or that fails. */
  function Found(net: Net, es: seq<Version>, refused: seq<Refusal>, from: nat, j: nat): nat
    requires j < |refused|
  {
    if net.fault(LookupCall(refused, from, j)) then 0 else DateOf(es, refused[j])
  }

  /** `until` is the larger of `base` and the dates found for the first `n` refusals. */
  ghost predicate Dates(net: Net, es: seq<Version>, refused: seq<Refusal>, n: nat, from: nat, base: nat, until: nat)
    requires n <= |refused|
  {
    && base <= until
    && (forall j :: 0 <= j < n ==> Found(net, es, refused, from, j) <= until)
    && (until > base ==> exists j :: 0 <= j < n && Found(net, es, refused, from, j) == until)
  }

  /** The latest of `base` and the dates found for the first `n` refusals. */
  ghost function MaxDate(net: Net, es: seq<Version>, refused: seq<Refusal>, n: nat, from: nat, base: nat): nat
    requires n <= |refused|
  {
    if n == 0 then base
    else
      var before := MaxDate(net, es, refused, n - 1, from, base);
      var found := Found(net, es, refused, from, n - 1);
      if found > before then found else before
  }

  lemma {:induction false} MaxDateMeans(net: Net, es: seq<Version>, refused: seq<Refusal>, n: nat, from: nat, base: nat)
    requires n <= |refused|
    ensures Dates(net, es, refused, n, from, base, MaxDate(net, es, refused, n, from, base))
  {
    if n > 0 {
      MaxDateMeans(net, es, refused, n - 1, from, base);
    }
  }

  /** The running maximum over the dates of what one page refused, as far as
      they could be looked up. */
  method LatestDate(net: Net, s: Server, refused: seq<Refusal>, base: nat) returns (t: Server, until: nat)
    requires Sane(net)
    ensures t == s.(calls := LookupCall(refused, s.calls, |refused|))
    ensures until == MaxDate(net, s.entries, refused, |refused|, s.calls, base)
    ensures Dates(net, s.entries, refused, |refused|, s.calls, base, until)
  {
    t, until := s, base;
    for k := 0 to |refused|
      invariant t == s.(calls := LookupCall(refused, s.calls, k))
      invariant until == MaxDate(net, s.entries, refused, k, s.calls, base)
    {
      assert refused[..k + 1][..k] == refused[..k];
      var found;
      t, found := RetainUntil(net, t, refused[k]);
      assert found == Found(net, s.entries, refused, s.calls, k);
      if found > until {
        until := found;
      }
    }
    MaxDateMeans(net, s.entries, refused, |refused|, s.calls, base);
  }

  // ----- One pass -----

  /** What one round of the pass leaves: `at` and `asked` say of each entry so
      far when it was last tried and in which call it was looked up. */
  datatype Round = Round(server: Server, until: nat, err: Error, next: int, truncated: bool,
                         at: map<nat, nat>, asked: map<nat, nat>)

  ghost function NextPage(net: Net, s: Server, marker: int): Page
    requires Sane(net)
  {
    PageOf(s.entries, marker, net.page(s.calls))
  }

  ghost function PageIds(net: Net, s: Server, marker: int): seq<nat>
    requires Sane(net)
  {
    Positions(NextPage(net, s, marker).versions + NextPage(net, s, marker).markers)
  }

  /** A page to delete names exactly the entries between two markers. */
  lemma PageIdsMean(net: Net, s: Server, marker: int)
    requires Sane(net) && Sorted(s.entries)
    ensures var (page, ids) := (NextPage(net, s, marker), PageIds(net, s, marker));
            && marker <= page.next && Shows(s.entries, ids, marker, page.next) && NoRepeats(ids)
            && (page.truncated ==> exists e :: e in s.entries && marker < e.pos <= page.next)
            && (!page.truncated ==> forall e :: e in s.entries ==> e.pos <= page.next || e.pos <= marker)
            && Once(Tried(net, Used(s), ids).refused)
  {
    var ids := PageIds(net, s, marker);
    PageMeans(s.entries, marker, net.page(s.calls));
    PagePositions(s.entries, NextPage(net, s, marker), marker, ids);
    TriedMeans(net, Used(s), ids);
  }

  /** List a page, delete it, and look up the dates of what is left. */
  ghost function PageRound(net: Net, s: Server, marker: int, until: nat, at: map<nat, nat>, asked: map<nat, nat>): Round
    requires Sane(net) && Sorted(s.entries)
  {
    if net.fault(s.calls) then Round(Used(s), until, CallFailed(net.throttled(s.calls)), marker, false, at, asked)
    else
      PageIdsMean(net, s, marker);
      var (page, ids) := (NextPage(net, s, marker), PageIds(net, s, marker));
      var b := Tried(net, Used(s), ids);
      if b.err != NoError then Round(b.server, until, b.err, page.next, page.truncated, at, asked)
      else
        Round(b.server.(calls := LookupCall(b.refused, b.server.calls, |b.refused|)),
              MaxDate(net, b.server.entries, b.refused, |b.refused|, b.server.calls, until),
              NoError, page.next, page.truncated,
              Dated(s.entries, at, marker, page.next, LastTry(net, Used(s), ids)),
              asked + AskedFor(b.refused, b.server.calls))
  }

  method PassPage(net: Net, s: Server, marker: int, until: nat, ghost at: map<nat, nat>, ghost asked: map<nat, nat>)
    returns (t: Server, latest: nat, err: Error, next: int, truncated: bool)
    requires Sane(net) && Sorted(s.entries)
    ensures var r := PageRound(net, s, marker, until, at, asked);
            t == r.server && latest == r.until && err == r.err && next == r.next && truncated == r.truncated
  {
    t, latest, err, next, truncated := Used(s), until, CallFailed(net.throttled(s.calls)), marker, false;
    var reply := ListVersions(net, s, marker);
    if reply.Fault? {
      return;
    }
    var page := reply.value;
    var ids := Positions(page.versions + page.markers);
    next, truncated := page.next, page.truncated;
    var refused;
    t, refused, err := DeletePage(net, t, ids);
    if err == NoError {
      t, latest := LatestDate(net, t, refused, until);
    }
  }

  /** From `s` to `u` nothing is gone but entries between two markers that would
      not refuse. */
  ghost predicate Between(net: Net, s: Server, u: Server, m: int, n: int) {
    && m <= n && u.calls >= s.calls && u.slept == s.slept && Now(net, s) <= Now(net, u)
    && Sorted(u.entries) && Spares(net, s, u)
    && (forall e :: e in u.entries ==> e in s.entries)
    && (forall e :: e in s.entries && !(m < e.pos <= n) ==> e in u.entries)
  }

  /** One round changes nothing outside its page, whether a call fails or not. */
  lemma RoundKept(net: Net, s: Server, marker: int, until: nat, at: map<nat, nat>, asked: map<nat, nat>)
    requires Sane(net) && Sorted(s.entries)
    ensures var r := PageRound(net, s, marker, until, at, asked);
            EndsWell(net, s, r.server, r.err) && Between(net, s, r.server, marker, r.next)
  {
    var r := PageRound(net, s, marker, until, at, asked);
    if net.fault(s.calls) {
      NowGrows(net, s, Used(s));
    } else {
      var ids := PageIds(net, s, marker);
      PageIdsMean(net, s, marker);
      TriedMeans(net, Used(s), ids);
      PageKept(net, s, Tried(net, Used(s), ids).server, r.server, ids, marker, r.next);
    }
  }

  lemma PageKept(net: Net, s: Server, t: Server, u: Server, ids: seq<nat>, m: int, n: int)
    requires Sane(net) && Within(net, Used(s), t, ids) && Shows(s.entries, ids, m, n) && m <= n
    requires u.entries == t.entries && u.slept == t.slept && u.calls >= t.calls
    ensures Between(net, s, u, m, n)
  {
    NowGrows(net, s, u);
    NowGrows(net, t, u);
    forall e | e in s.entries && Refuses(e, Now(net, u), true) ensures e in u.entries {
      assert Refuses(e, Now(net, t), true);
    }
  }

  /** One round without a failing deletion keeps the pass invariant. */
  lemma RoundDone(net: Net, s0: Server, s: Server, marker: int, until: nat, at: map<nat, nat>, asked: map<nat, nat>)
    requires Sane(net) && Passed(net, s0, s, marker, at) && Latest(net, s0.calls, s, marker, at, asked, until)
    requires Apart(s, marker, at, asked)
    requires !net.fault(s.calls) && PageRound(net, s, marker, until, at, asked).err == NoError
    ensures var r := PageRound(net, s, marker, until, at, asked);
            && Passed(net, s0, r.server, r.next, r.at)
            && Latest(net, s0.calls, r.server, r.next, r.at, r.asked, r.until)
            && Apart(r.server, r.next, r.at, r.asked)
  {
    var (page, ids) := (NextPage(net, s, marker), PageIds(net, s, marker));
    var (b, when) := (Tried(net, Used(s), ids), LastTry(net, Used(s), ids));
    var r := PageRound(net, s, marker, until, at, asked);
    PageIdsMean(net, s, marker);
    TriedMeans(net, Used(s), ids);
    NowGrows(net, s, Used(s));
    PassedPage(net, s0, s, b.server, marker, page.next, ids, at, r.at, when);
    PassedLater(net, s0, b.server, r.server, page.next, r.at);
    MaxDateMeans(net, b.server.entries, b.refused, |b.refused|, b.server.calls, until);
    LatestPage(net, s0, s, b.server, r.server, marker, page.next, ids, when, b.refused, at, asked, r.at, r.asked,
               until, r.until);
    ApartPage(net, s0, s, b.server, marker, page.next, ids, when, b.refused, at, asked, r.at, r.asked, until);
  }

  /** The call in which each refused entry was looked up. */
  ghost function AskedFor(refused: seq<Refusal>, from: nat): map<nat, nat>
    requires Once(refused)
  {
    map j | 0 <= j < |refused| :: refused[j].pos := LookupCall(refused, from, j)
  }

  lemma PassedLater(net: Net, s0: Server, s: Server, t: Server, m: int, at: map<nat, nat>)
    requires Sane(net) && Passed(net, s0, s, m, at)
    requires t.entries == s.entries && t.slept == s.slept && t.calls >= s.calls
    ensures Passed(net, s0, t, m, at)
  {
    assert Now(net, s) <= Now(net, t);
  }

  /** The batch of a page is exactly what lies between two markers. */
  ghost predicate Shows(es: seq<Version>, ids: seq<nat>, m: int, n: int) {
    forall e :: e in es ==> (e.pos in ids <==> m < e.pos <= n)
  }

  lemma PagePositions(es: seq<Version>, page: Page, marker: int, ids: seq<nat>)
    requires forall e :: e in page.versions + page.markers <==> e in es && marker < e.pos <= page.next
    requires ids == Positions(page.versions + page.markers)
    ensures Shows(es, ids, marker, page.next)
  {
    forall e | e in es ensures e.pos in ids <==> marker < e.pos <= page.next {
      if e.pos in ids {
        var v :| v in page.versions + page.markers && v.pos == e.pos;
        assert marker < v.pos <= page.next;
      }
    }
  }

  /** The outcome of a pass. `reached` is the marker of the last page it was done
      with, `tried` that of the last page it began. */
  datatype Pass = Pass(server: Server, until: nat, err: Error, reached: int, tried: int,
                       at: map<nat, nat>, asked: map<nat, nat>)

  ghost function PassFrom(net: Net, s: Server, marker: int, until: nat, at: map<nat, nat>, asked: map<nat, nat>): Pass
    requires Sane(net) && Sorted(s.entries)
    decreases |Beyond(s.entries, marker)|
  {
    var r := PageRound(net, s, marker, until, at, asked);
    if r.err != NoError then Pass(r.server, r.until, r.err, marker, r.next, at, asked)
    else if !r.truncated then Pass(r.server, r.until, NoError, r.next, r.next, r.at, r.asked)
    else
      RoundAdvances(net, s, marker, until, at, asked);
      PassFrom(net, r.server, r.next, r.until, r.at, r.asked)
  }

  lemma RoundEnds(net: Net, s: Server, marker: int, until: nat, at: map<nat, nat>, asked: map<nat, nat>)
    requires Sane(net) && Sorted(s.entries)
    ensures var r := PageRound(net, s, marker, until, at, asked);
            r.err == NoError && !r.truncated ==> forall e :: e in s.entries ==> e.pos <= r.next || e.pos <= marker
  {
    PageIdsMean(net, s, marker);
  }

  lemma RoundAdvances(net: Net, s: Server, marker: int, until: nat, at: map<nat, nat>, asked: map<nat, nat>)
    requires Sane(net) && Sorted(s.entries)
    ensures var r := PageRound(net, s, marker, until, at, asked);
            && Sorted(r.server.entries)
            && (r.err == NoError && r.truncated ==>
                  |Beyond(r.server.entries, r.next)| < |Beyond(s.entries, marker)|)
  {
    var (page, ids) := (NextPage(net, s, marker), PageIds(net, s, marker));
    if !net.fault(s.calls) {
      PageIdsMean(net, s, marker);
      TriedMeans(net, Used(s), ids);
      TriedShrinks(net, Used(s), ids, page.next);
      BeyondShrinks(s.entries, marker, page.next);
    }
  }

  lemma TriedShrinks(net: Net, s: Server, ids: seq<nat>, m: int)
    ensures |Beyond(Tried(net, s, ids).server.entries, m)| <= |Beyond(s.entries, m)|
  {
    var mid := Batch(net, s, ids, false);
    BatchShrinks(net, s, ids, false, m);
    BatchShrinks(net, mid.server, Identifiers(mid.refused), true, m);
  }

  lemma BatchShrinks(net: Net, s: Server, ids: seq<nat>, bypass: bool, m: int)
    ensures |Beyond(Batch(net, s, ids, bypass).server.entries, m)| <= |Beyond(s.entries, m)|
  {
    KeptShrinks(s.entries, ids, Now(net, s), bypass, m);
  }

  lemma {:induction false} KeptShrinks(es: seq<Version>, ids: seq<nat>, when: nat, bypass: bool, m: int)
    ensures |Beyond(Kept(es, ids, when, bypass), m)| <= |Beyond(es, m)|
  {
    if es != [] {
      KeptShrinks(es[1..], ids, when, bypass, m);
      var rest := Kept(es[1..], ids, when, bypass);
      assert ([es[0]] + rest)[1..] == rest && [] + rest == rest;
    }
  }

  ghost function FullPass(net: Net, s: Server): Pass
    requires Sane(net) && Sorted(s.entries)
  {
    PassFrom(net, s, -1, 0, map[], map[])
  }

  method DeleteVersions(net: Net, s0: Server) returns (s: Server, until: nat, err: Error)
    requires Sane(net) && Sorted(s0.entries)
    ensures var p := FullPass(net, s0); s == p.server && until == p.until && err == p.err
  {
    s, until, err := s0, 0, NoError;
    var marker: int := -1;
    ghost var at: map<nat, nat>, asked: map<nat, nat> := map[], map[];
    while true
      invariant Sorted(s.entries) && PassFrom(net, s, marker, until, at, asked) == FullPass(net, s0)
      decreases |Beyond(s.entries, marker)|
    {
      RoundAdvances(net, s, marker, until, at, asked);
      ghost var r := PageRound(net, s, marker, until, at, asked);
      var next, truncated;
      s, until, err, next, truncated := PassPage(net, s, marker, until, at, asked);
      if err != NoError || !truncated {
        return;
      }
      marker, at, asked := next, r.at, r.asked;
    }
  }

  /** What a pass that began at `s0` comes to. */
  ghost predicate PassedOver(net: Net, s0: Server, p: Pass) {
    && EndsWell(net, s0, p.server, p.err) && Spares(net, s0, p.server)
    && Sorted(p.server.entries) && p.server.slept == s0.slept
    && (forall e :: e in p.server.entries ==> e in s0.entries)
    && (forall e :: e in s0.entries && e.pos > p.tried ==> e in p.server.entries)
    && (forall e :: e in s0.entries && e.pos <= p.reached ==>
          && e.pos in p.at && Now(net, s0) <= p.at[e.pos] <= Now(net, p.server)
          && (e in p.server.entries <==> Refuses(e, p.at[e.pos], true)))
    && (p.err == NoError ==>
          && (forall e :: e in s0.entries ==> e.pos <= p.reached)
          && Latest(net, s0.calls, p.server, p.reached, p.at, p.asked, p.until)
          && Apart(p.server, p.reached, p.at, p.asked))
  }

  lemma {:induction false} PassKeeps(net: Net, s0: Server, s: Server, marker: int, until: nat,
                                     at: map<nat, nat>, asked: map<nat, nat>)
    requires Sane(net) && Passed(net, s0, s, marker, at) && Spares(net, s0, s)
    requires Latest(net, s0.calls, s, marker, at, asked, until) && Apart(s, marker, at, asked)
    ensures PassedOver(net, s0, PassFrom(net, s, marker, until, at, asked))
    decreases |Beyond(s.entries, marker)|
  {
    var r := PageRound(net, s, marker, until, at, asked);
    RoundKept(net, s, marker, until, at, asked);
    RoundEnds(net, s, marker, until, at, asked);
    SparesChain(net, s0, s, r.server);
    if r.err == NoError {
      RoundDone(net, s0, s, marker, until, at, asked);
    }
    if r.err == NoError && r.truncated {
      RoundAdvances(net, s, marker, until, at, asked);
      PassKeeps(net, s0, r.server, r.next, r.until, r.at, r.asked);
    }
  }

  /** One pass. Of the entries up to the marker reached, and without an error
      that is all of them, what is left is exactly what refused its last attempt,
      made with bypass during the pass; what comes after the page that failed is
      untouched. The date is the latest one heard of for what is left, each in a
      lookup of its own, those that failed left out. However far the pass gets,
      what would still refuse at its end is not deleted. */
  lemma PassMeans(net: Net, s0: Server)
    requires Sane(net) && Sorted(s0.entries)
    ensures PassedOver(net, s0, FullPass(net, s0))
  {
    PassKeeps(net, s0, s0, -1, 0, map[], map[]);
  }

  lemma NowGrows(net: Net, s: Server, t: Server)
    requires Sane(net) && s.calls <= t.calls && s.slept <= t.slept
    ensures Now(net, s) <= Now(net, t)
  {
  }

  /** `at` extended with `when` for the entries of one page. */
  ghost function Dated(es: seq<Version>, at: map<nat, nat>, m: int, n: int, when: nat): map<nat, nat> {
    at + (map e | e in es && m < e.pos <= n :: e.pos := when)
  }

  lemma PassedPage(net: Net, s0: Server, s: Server, t: Server, m: int, n: int, ids: seq<nat>,
                   at: map<nat, nat>, at1: map<nat, nat>, when: nat)
    requires Sane(net) && Passed(net, s0, s, m, at) && m <= n
    requires at1 == Dated(s.entries, at, m, n, when)
    requires t.calls >= s.calls && t.slept == s.slept
    requires Now(net, s) <= when <= Now(net, t)
    requires Shows(s.entries, ids, m, n) && Deleted(s.entries, t.entries, ids, when)
    ensures Passed(net, s0, t, n, at1)
  {
    forall e | e in s0.entries && e.pos <= n
      ensures && e.pos in at1 && Now(net, s0) <= at1[e.pos] <= Now(net, t)
              && (e in t.entries <==> Refuses(e, at1[e.pos], true))
    {
      if e.pos <= m {
        assert at1[e.pos] == at[e.pos];
      } else {
        assert at1[e.pos] == when && e in s.entries;
        assert net.clock(s0.calls) <= net.clock(s.calls);
      }
    }
  }

  lemma DateIsKnown(left: seq<Version>, e: Version, when: nat)
    requires Sorted(left) && e in left
    ensures DateOf(left, Refusal(e.pos, Reason(e, when, true))) == KnownDate(e, when)
  {
    FindMeans(left, e);
  }

  /** What a page's lookups found is what was heard of the entries it left. */
  lemma FoundIsHeard(net: Net, left: seq<Version>, ids: seq<nat>, when: nat, refused: seq<Refusal>, from: nat, j: nat)
    returns (e: Version)
    requires Sorted(left) && Explains(left, ids, when, refused) && j < |refused|
    ensures e in left && e.pos in ids && refused[j] == Refusal(e.pos, Reason(e, when, true))
    ensures e.pos in AskedFor(refused, from) && AskedFor(refused, from)[e.pos] == LookupCall(refused, from, j)
    ensures Found(net, left, refused, from, j)
            == if net.fault(AskedFor(refused, from)[e.pos]) then 0 else KnownDate(e, when)
  {
    var r := refused[j];
    assert r in refused;
    e :| e in left && e.pos == r.pos && e.pos in ids && r.code == Reason(e, when, true);
    DateIsKnown(left, e, when);
  }

  lemma {:induction false} LookupsGrow(refused: seq<Refusal>, j: nat, n: nat)
    requires j < n <= |refused| && refused[j].code == AccessDenied
    ensures Lookups(refused[..j]) < Lookups(refused[..n])
  {
    assert refused[..n][..n - 1] == refused[..n - 1];
    if j < n - 1 {
      LookupsGrow(refused, j, n - 1);
    }
  }

  /** The place of the refusal that says why an entry is left. */
  lemma RefusalOf(left: seq<Version>, ids: seq<nat>, when: nat, refused: seq<Refusal>, e: Version) returns (j: nat)
    requires Explains(left, ids, when, refused) && e in left && e.pos in ids
    ensures j < |refused| && refused[j] == Refusal(e.pos, Reason(e, when, true))
  {
    j :| 0 <= j < |refused| && refused[j] == Refusal(e.pos, Reason(e, when, true));
  }

  lemma SamePlace(es: seq<Version>, e: Version, f: Version)
    requires Sorted(es) && e in es && f in es && e.pos == f.pos
    ensures e == f
  {
    FindMeans(es, e);
    FindMeans(es, f);
  }

  /** One entry of the page, after its lookup. */
  lemma HeardOnPage(net: Net, t: Server, u: Server, ids: seq<nat>, when: nat, refused: seq<Refusal>,
                    base: nat, until: nat, e: Version)
    requires Sorted(t.entries) && Explains(t.entries, ids, when, refused)
    requires Dates(net, t.entries, refused, |refused|, t.calls, base, until)
    requires u.calls == LookupCall(refused, t.calls, |refused|) && e in t.entries && e.pos in ids
    ensures var asked := AskedFor(refused, t.calls);
            && e.pos in asked
            && (if net.fault(asked[e.pos]) then 0 else KnownDate(e, when)) <= until
            && (Locked(e, when, true) ==> t.calls <= asked[e.pos] < u.calls)
  {
    var j := RefusalOf(t.entries, ids, when, refused, e);
    var f := FoundIsHeard(net, t.entries, ids, when, refused, t.calls, j);
    SamePlace(t.entries, e, f);
    assert Found(net, t.entries, refused, t.calls, j) <= until;
    if Locked(e, when, true) {
      LookupsGrow(refused, j, |refused|);
    }
  }

  /** A page from marker `m` to marker `n` is over: `t` is the server after its
      deletions, and `at1` and `asked1` say of each entry so far when it was last
      tried and in which call it was looked up. */
  ghost predicate PageOver(s0: Server, s: Server, t: Server, m: int, n: int, ids: seq<nat>, when: nat,
                           refused: seq<Refusal>, at: map<nat, nat>, asked: map<nat, nat>,
                           at1: map<nat, nat>, asked1: map<nat, nat>) {
    && Once(refused) && m <= n
    && at1 == Dated(s.entries, at, m, n, when) && asked1 == asked + AskedFor(refused, t.calls)
    && Shows(s.entries, ids, m, n) && Deleted(s.entries, t.entries, ids, when)
    && Explains(t.entries, ids, when, refused)
    && s0.calls <= s.calls <= t.calls && forall e :: e in s.entries ==> e in s0.entries
  }

  /** A page changes nothing about the entries before it. */
  lemma EarlierStays(s0: Server, s: Server, t: Server, m: int, n: int, ids: seq<nat>, when: nat, refused: seq<Refusal>,
                     at: map<nat, nat>, asked: map<nat, nat>, at1: map<nat, nat>, asked1: map<nat, nat>, e: Version)
    requires PageOver(s0, s, t, m, n, ids, when, refused, at, asked, at1, asked1)
    requires e in s.entries && e.pos <= m && e.pos in at && e.pos in asked
    ensures e in t.entries
    ensures e.pos in at1 && e.pos in asked1 && at1[e.pos] == at[e.pos] && asked1[e.pos] == asked[e.pos]
  {
    assert e.pos !in ids;
    forall j | 0 <= j < |refused| ensures refused[j].pos != e.pos {
      assert refused[j] in refused;
    }
  }

  /** The entries it leaves were last tried in it and looked up after it. */
  lemma PageEntry(s0: Server, s: Server, t: Server, m: int, n: int, ids: seq<nat>, when: nat, refused: seq<Refusal>,
                  at: map<nat, nat>, asked: map<nat, nat>, at1: map<nat, nat>, asked1: map<nat, nat>, e: Version)
    requires PageOver(s0, s, t, m, n, ids, when, refused, at, asked, at1, asked1)
    requires e in t.entries && m < e.pos <= n && e.pos in AskedFor(refused, t.calls)
    ensures e.pos in ids
    ensures e.pos in at1 && e.pos in asked1 && at1[e.pos] == when && asked1[e.pos] == AskedFor(refused, t.calls)[e.pos]
  {
    assert e in s.entries && e in s0.entries;
  }

  lemma LeftOnPage(es: seq<Version>, left: seq<Version>, ids: seq<nat>, when: nat, m: int, n: int, e: Version)
    requires Shows(es, ids, m, n) && Deleted(es, left, ids, when) && e in left
    ensures e in es && (e.pos in ids <==> m < e.pos <= n)
  {
  }

  /** One entry that is left, heard of on an earlier page or on this one. */
  lemma HeardOf(net: Net, s0: Server, s: Server, t: Server, u: Server, m: int, n: int, ids: seq<nat>, when: nat,
                refused: seq<Refusal>, at: map<nat, nat>, asked: map<nat, nat>,
                at1: map<nat, nat>, asked1: map<nat, nat>, base: nat, until: nat, e: Version)
    requires PageOver(s0, s, t, m, n, ids, when, refused, at, asked, at1, asked1)
    requires Latest(net, s0.calls, s, m, at, asked, base)
    requires Dates(net, t.entries, refused, |refused|, t.calls, base, until)
    requires u == t.(calls := LookupCall(refused, t.calls, |refused|))
    requires e in t.entries && e.pos <= n
    ensures e.pos in at1 && e.pos in asked1 && Heard(net, e, at1, asked1) <= until
    ensures Locked(e, at1[e.pos], true) ==> s0.calls <= asked1[e.pos] < u.calls
  {
    LeftOnPage(s.entries, t.entries, ids, when, m, n, e);
    if e.pos <= m {
      EarlierStays(s0, s, t, m, n, ids, when, refused, at, asked, at1, asked1, e);
    } else {
      HeardOnPage(net, t, u, ids, when, refused, base, until, e);
      PageEntry(s0, s, t, m, n, ids, when, refused, at, asked, at1, asked1, e);
    }
  }

  /** A latest date there is belongs to an entry that is left. */
  lemma LatestIsHeard(net: Net, s0: Server, s: Server, t: Server, m: int, n: int, ids: seq<nat>, when: nat,
                      refused: seq<Refusal>, at: map<nat, nat>, asked: map<nat, nat>,
                      at1: map<nat, nat>, asked1: map<nat, nat>, base: nat, until: nat)
    returns (e: Version)
    requires PageOver(s0, s, t, m, n, ids, when, refused, at, asked, at1, asked1)
    requires Latest(net, s0.calls, s, m, at, asked, base) && until > 0
    requires Dates(net, t.entries, refused, |refused|, t.calls, base, until)
    ensures e in t.entries && e.pos <= n && e.pos in at1 && e.pos in asked1 && Heard(net, e, at1, asked1) == until
  {
    if until > base {
      var j :| 0 <= j < |refused| && Found(net, t.entries, refused, t.calls, j) == until;
      e := FoundIsHeard(net, t.entries, ids, when, refused, t.calls, j);
      LeftOnPage(s.entries, t.entries, ids, when, m, n, e);
      PageEntry(s0, s, t, m, n, ids, when, refused, at, asked, at1, asked1, e);
    } else {
      e :| e in s.entries && e.pos <= m && e.pos in at && e.pos in asked && Heard(net, e, at, asked) == until;
      EarlierStays(s0, s, t, m, n, ids, when, refused, at, asked, at1, asked1, e);
    }
  }

  /** The latest date stays right over a page, `u` being the server after its lookups. */
  lemma LatestPage(net: Net, s0: Server, s: Server, t: Server, u: Server, m: int, n: int, ids: seq<nat>, when: nat,
                   refused: seq<Refusal>, at: map<nat, nat>, asked: map<nat, nat>,
                   at1: map<nat, nat>, asked1: map<nat, nat>, base: nat, until: nat)
    requires PageOver(s0, s, t, m, n, ids, when, refused, at, asked, at1, asked1)
    requires Latest(net, s0.calls, s, m, at, asked, base)
    requires Dates(net, t.entries, refused, |refused|, t.calls, base, until)
    requires u == t.(calls := LookupCall(refused, t.calls, |refused|))
    ensures Latest(net, s0.calls, u, n, at1, asked1, until)
  {
    forall e | e in u.entries && e.pos <= n
      ensures && e.pos in at1 && e.pos in asked1 && Heard(net, e, at1, asked1) <= until
              && (Locked(e, at1[e.pos], true) ==> s0.calls <= asked1[e.pos] < u.calls)
    {
      HeardOf(net, s0, s, t, u, m, n, ids, when, refused, at, asked, at1, asked1, base, until, e);
    }
    if until > 0 {
      var e := LatestIsHeard(net, s0, s, t, m, n, ids, when, refused, at, asked, at1, asked1, base, until);
    }
  }

  /** Where in the calls the lookup of an entry this page left is. */
  lemma AskedOnPage(t: Server, ids: seq<nat>, when: nat, refused: seq<Refusal>, e: Version) returns (j: nat)
    requires Explains(t.entries, ids, when, refused) && e in t.entries && e.pos in ids
    ensures j < |refused| && refused[j] == Refusal(e.pos, Reason(e, when, true))
    ensures e.pos in AskedFor(refused, t.calls)
    ensures AskedFor(refused, t.calls)[e.pos] == LookupCall(refused, t.calls, j)
  {
    j := RefusalOf(t.entries, ids, when, refused, e);
    assert refused[j].pos in AskedFor(refused, t.calls);
  }

  lemma ApartOnPage(t: Server, ids: seq<nat>, when: nat, refused: seq<Refusal>, e: Version, f: Version)
    requires Explains(t.entries, ids, when, refused) && e in t.entries && f in t.entries
    requires e.pos in ids && f.pos in ids && e.pos != f.pos && Locked(e, when, true) && Locked(f, when, true)
    ensures var asked := AskedFor(refused, t.calls);
            e.pos in asked && f.pos in asked && asked[e.pos] != asked[f.pos]
  {
    var j := AskedOnPage(t, ids, when, refused, e);
    var k := AskedOnPage(t, ids, when, refused, f);
    if j < k {
      LookupsGrow(refused, j, k);
    } else {
      LookupsGrow(refused, k, j);
    }
  }

  lemma ApartPair(net: Net, s0: Server, s: Server, t: Server, m: int, n: int, ids: seq<nat>, when: nat,
                  refused: seq<Refusal>, at: map<nat, nat>, asked: map<nat, nat>,
                  at1: map<nat, nat>, asked1: map<nat, nat>, until: nat, e: Version, f: Version)
    requires PageOver(s0, s, t, m, n, ids, when, refused, at, asked, at1, asked1)
    requires Latest(net, s0.calls, s, m, at, asked, until) && Apart(s, m, at, asked)
    requires e in t.entries && f in t.entries && e.pos < f.pos <= n
    requires LookedUp(e, at1, asked1) && LookedUp(f, at1, asked1)
    ensures asked1[e.pos] != asked1[f.pos]
  {
    AskedWhen(net, s0, s, t, m, n, ids, when, refused, at, asked, at1, asked1, until, e);
    AskedWhen(net, s0, s, t, m, n, ids, when, refused, at, asked, at1, asked1, until, f);
    if e.pos > m {
      ApartOnPage(t, ids, when, refused, e, f);
    }
  }

  /** An entry was looked up after the page that left it, and before the next one. */
  lemma AskedWhen(net: Net, s0: Server, s: Server, t: Server, m: int, n: int, ids: seq<nat>, when: nat,
                  refused: seq<Refusal>, at: map<nat, nat>, asked: map<nat, nat>,
                  at1: map<nat, nat>, asked1: map<nat, nat>, until: nat, e: Version)
    requires PageOver(s0, s, t, m, n, ids, when, refused, at, asked, at1, asked1)
    requires Latest(net, s0.calls, s, m, at, asked, until)
    requires e in t.entries && e.pos <= n && LookedUp(e, at1, asked1)
    ensures e.pos <= m ==> e in s.entries && LookedUp(e, at, asked)
                           && asked1[e.pos] == asked[e.pos] < t.calls
    ensures e.pos > m ==> && e.pos in ids && Locked(e, when, true) && e.pos in AskedFor(refused, t.calls)
                          && asked1[e.pos] == AskedFor(refused, t.calls)[e.pos] >= t.calls
  {
    LeftOnPage(s.entries, t.entries, ids, when, m, n, e);
    if e.pos <= m {
      EarlierStays(s0, s, t, m, n, ids, when, refused, at, asked, at1, asked1, e);
    } else {
      var _ := AskedOnPage(t, ids, when, refused, e);
      PageEntry(s0, s, t, m, n, ids, when, refused, at, asked, at1, asked1, e);
    }
  }

  lemma ApartPage(net: Net, s0: Server, s: Server, t: Server, m: int, n: int, ids: seq<nat>, when: nat,
                  refused: seq<Refusal>, at: map<nat, nat>, asked: map<nat, nat>,
                  at1: map<nat, nat>, asked1: map<nat, nat>, until: nat)
    requires PageOver(s0, s, t, m, n, ids, when, refused, at, asked, at1, asked1)
    requires Latest(net, s0.calls, s, m, at, asked, until) && Apart(s, m, at, asked)
    ensures Apart(t, n, at1, asked1)
  {
    forall e, f | e in t.entries && f in t.entries && e.pos < f.pos <= n
                  && LookedUp(e, at1, asked1) && LookedUp(f, at1, asked1)
      ensures asked1[e.pos] != asked1[f.pos]
    {
      ApartPair(net, s0, s, t, m, n, ids, when, refused, at, asked, at1, asked1, until, e, f);
    }
  }

  // ----- The two-phase cleanup -----

  /** A retention date that keeps an entry through the first pass and is more
      than a minute past its end. */
  predicate OutlastsWait(e: Version, end: nat) {
    (e.hold || e.mode == Compliance) && e.mode != Unlocked && e.until > end + 60_000_000_000
  }

  lemma PassSorted(net: Net, s0: Server)
    requires Sane(net) && Sorted(s0.entries)
    ensures Sorted(FullPass(net, s0).server.entries)
  {
    PassMeans(net, s0);
  }

  datatype Emptied = Emptied(server: Server, err: Error)

  /** What two passes around a wait of at most a minute come to. */
  ghost function Emptying(net: Net, s0: Server, interrupted: bool): Emptied
    requires Sane(net) && Sorted(s0.entries)
  {
    PassSorted(net, s0);
    AfterFirst(net, FullPass(net, s0), interrupted)
  }

  /** What becomes of it after the first pass. */
  ghost function AfterFirst(net: Net, first: Pass, interrupted: bool): Emptied
    requires Sane(net) && Sorted(first.server.entries)
  {
    var end := Now(net, first.server);
    if first.err != NoError || first.until == 0 then Emptied(first.server, first.err)
    else if first.until - end > MINUTE then Emptied(first.server, LockedTooLong)
    else if first.until > end && interrupted then Emptied(Used(first.server), Interrupted)
    else
      var second := FullPass(net, Rested(net, first));
      Emptied(second.server, second.err)
  }

  /** The server once the latest date of a pass is over. */
  function Rested(net: Net, p: Pass): Server {
    var end := Now(net, p.server);
    Used(p.server).(slept := p.server.slept + if p.until > end then p.until - end else 0)
  }

  /** Empties the bucket in two passes around a wait of at most a minute. */
  method EmptyBucket(net: Net, s0: Server, interrupted: bool) returns (s: Server, err: Error)
    requires Sane(net) && Sorted(s0.entries)
    ensures Emptied(s, err) == Emptying(net, s0, interrupted)
  {
    hide FullPass;
    var until;
    PassSorted(net, s0);
    s, until, err := DeleteVersions(net, s0);
    if err != NoError || until == 0 {
      return;
    }
    var wait := until - Now(net, s);
    if wait > MINUTE {
      err := LockedTooLong;
      return;
    }
    s := Used(s);
    if wait > 0 {
      if interrupted {
        err := Interrupted;
        return;
      }
      s := s.(slept := s.slept + wait);
    }
    s, until, err := DeleteVersions(net, s);
  }

  /** However the cleanup goes: it waits until the latest date it found, if that is
      at most a minute away and nobody interrupts, and not otherwise; what would
      still refuse is there; and a failed call is the last one made. It gives up on locks exactly
      when the first pass, made without an error, found a date more than a minute
      past its end, and is interrupted in a wait of at most a minute. */
  lemma EmptyingKeeps(net: Net, s0: Server, interrupted: bool)
    requires Sane(net) && Sorted(s0.entries)
    ensures var (first, c) := (FullPass(net, s0), Emptying(net, s0, interrupted));
            var end := Now(net, first.server);
            && Sorted(c.server.entries) && (forall e :: e in c.server.entries ==> e in s0.entries)
            && c.server.calls >= s0.calls
            && c.server.slept
               == s0.slept + (if first.err == NoError && !interrupted && end < first.until <= end + MINUTE
                              then first.until - end else 0)
            && (first.err != NoError ==> c == Emptied(first.server, first.err))
            && Now(net, s0) <= end <= Now(net, c.server) && Spares(net, s0, c.server)
            && (c.err.CallFailed? ==> EndsWell(net, s0, c.server, c.err))
            && (c.err == Interrupted <==> interrupted && first.err == NoError && end < first.until <= end + MINUTE)
            && (c.err == LockedTooLong <==> first.err == NoError && first.until > end + MINUTE)
            && (c.err == LockedTooLong ==> c.server == first.server)
            && (c.err == NoError ==>
                  forall e :: e in c.server.entries ==> e.hold || e.broken || e.mode == Compliance)
  {
    var (first, c) := (FullPass(net, s0), Emptying(net, s0, interrupted));
    PassMeans(net, s0);
    NowGrows(net, s0, first.server);
    if first.err == NoError && first.until != 0 && first.until - Now(net, first.server) <= MINUTE {
      var s2 := Rested(net, first);
      if first.until > Now(net, first.server) && interrupted {
        NowGrows(net, first.server, Used(first.server));
        SparesChain(net, s0, first.server, Used(first.server));
      } else {
        PassMeans(net, s2);
        NowGrows(net, s2, FullPass(net, s2).server);
        BothPasses(net, s0, first.server, s2, FullPass(net, s2).server);
      }
    }
  }

  /** However the cleanup goes: if it ends without an error, everything it leaves
      refused an attempt, with bypass, that was not before the latest date found. */
  lemma LeftRefused(net: Net, s0: Server, interrupted: bool)
    requires Sane(net) && Sorted(s0.entries)
    ensures var (until, c) := (FullPass(net, s0).until, Emptying(net, s0, interrupted));
            c.err == NoError ==>
              forall e :: e in c.server.entries ==>
                exists t :: Now(net, s0) <= t <= Now(net, c.server) && t >= until && Refuses(e, t, true)
  {
    var (first, c) := (FullPass(net, s0), Emptying(net, s0, interrupted));
    PassMeans(net, s0);
    NowGrows(net, s0, first.server);
    if c.err == NoError {
      if first.until == 0 {
        RefusedWithin(net, s0, s0, first, c.server, 0);
      } else {
        var s2 := Rested(net, first);
        PassMeans(net, s2);
        NowGrows(net, first.server, s2);
        RefusedWithin(net, s0, s2, FullPass(net, s2), c.server, first.until);
      }
    }
  }

  /** The attempts of the pass that decided, `p`, which began at `s`. */
  lemma RefusedWithin(net: Net, s0: Server, s: Server, p: Pass, end: Server, until: nat)
    requires PassedOver(net, s, p) && p.err == NoError && end == p.server
    requires Now(net, s0) <= Now(net, s) && until <= Now(net, s)
    ensures forall e :: e in end.entries ==>
              exists t :: Now(net, s0) <= t <= Now(net, end) && t >= until && Refuses(e, t, true)
  {
    forall e | e in end.entries
      ensures exists t :: Now(net, s0) <= t <= Now(net, end) && t >= until && Refuses(e, t, true)
    {
      assert e in s.entries && e.pos <= p.reached && Refuses(e, p.at[e.pos], true);
    }
  }

  /** When none of its own calls fails and nobody interrupts the wait: the cleanup
      ends with no error or for a lock, the latter exactly when some date lies more
      than a minute past the end of the first pass. Without an error exactly what
      is held or broken is left. */
  lemma EmptyingMeans(net: Net, s0: Server)
    requires Sane(net) && Sorted(s0.entries)
    requires Undisturbed(net, s0.calls, Emptying(net, s0, false).server.calls)
    ensures var (c, end) := (Emptying(net, s0, false), Now(net, FullPass(net, s0).server));
            && (c.err == NoError || c.err == LockedTooLong)
            && (c.err == LockedTooLong <==> exists e :: e in s0.entries && OutlastsWait(e, end))
            && (c.err == NoError ==> forall e :: e in s0.entries ==> (e in c.server.entries <==> e.hold || e.broken))
            && (c.err == NoError && c.server.entries == [] <==>
                  forall e :: e in s0.entries ==>
                    !e.hold && !e.broken && (e.mode == Compliance ==> e.until <= end + MINUTE))
  {
    var (first, c) := (FullPass(net, s0), Emptying(net, s0, false));
    var end := Now(net, first.server);
    UndisturbedPass(net, s0);
    UndisturbedEnd(net, s0, c);
    EmptyingKeeps(net, s0, false);
    if c.err == NoError {
      EmptyMeans(s0.entries, c.server.entries, end);
    }
  }

  /** What the first pass finds out about the locks when it is not disturbed. */
  lemma UndisturbedPass(net: Net, s0: Server)
    requires Sane(net) && Sorted(s0.entries)
    requires Undisturbed(net, s0.calls, Emptying(net, s0, false).server.calls)
    ensures var (first, s1) := (FullPass(net, s0), FullPass(net, s0).server);
            var end := Now(net, s1);
            && first.err == NoError && Undisturbed(net, s0.calls, s1.calls)
            && (first.until > end + MINUTE <==> exists e :: e in s0.entries && OutlastsWait(e, end))
            && (first.until == 0 ==> forall e :: e in s0.entries ==> (e in s1.entries <==> e.hold || e.broken))
            && (forall e :: e in s1.entries && !e.hold && !e.broken ==> e.mode == Compliance && e.until <= first.until)
  {
    var first := FullPass(net, s0);
    PassMeans(net, s0);
    FirstBeforeEnd(net, s0);
    AllHeard(net, s0, first);
    FirstPass(net, s0, first.server, first.at, first.until, Now(net, first.server));
  }

  lemma FirstBeforeEnd(net: Net, s0: Server)
    requires Sane(net) && Sorted(s0.entries)
    ensures FullPass(net, s0).server.calls <= Emptying(net, s0, false).server.calls
  {
    PassSorted(net, s0);
    PassMeans(net, Rested(net, FullPass(net, s0)));
  }

  /** Undisturbed lookups make every date known. */
  lemma AllHeard(net: Net, s0: Server, p: Pass)
    requires PassedOver(net, s0, p) && p.err == NoError && Undisturbed(net, s0.calls, p.server.calls)
    ensures forall e :: e in p.server.entries ==> e.pos in p.at && KnownDate(e, p.at[e.pos]) <= p.until
    ensures p.until > 0 ==>
              exists e :: e in p.server.entries && e.pos in p.at && KnownDate(e, p.at[e.pos]) == p.until
  {
    forall e | e in p.server.entries
      ensures && e.pos in p.at && e.pos in p.asked && Heard(net, e, p.at, p.asked) == KnownDate(e, p.at[e.pos])
    {
      assert e in s0.entries && e.pos <= p.reached;
    }
  }

  /** What is left after both passes. */
  lemma UndisturbedEnd(net: Net, s0: Server, c: Emptied)
    requires Sane(net) && Sorted(s0.entries) && c == Emptying(net, s0, false)
    requires Undisturbed(net, s0.calls, c.server.calls)
    ensures var first := FullPass(net, s0);
            && (first.until > Now(net, first.server) + MINUTE ==> c.err == LockedTooLong)
            && (first.until <= Now(net, first.server) + MINUTE ==>
                  c.err == NoError && forall e :: e in s0.entries ==> (e in c.server.entries <==> e.hold || e.broken))
  {
    var first := FullPass(net, s0);
    UndisturbedPass(net, s0);
    PassMeans(net, s0);
    if 0 < first.until <= Now(net, first.server) + MINUTE {
      var s2 := Rested(net, first);
      PassMeans(net, s2);
      SecondPass(net, s0, first.server, s2, c.server, first.at, FullPass(net, s2).at, Now(net, first.server));
    }
  }

  /** What a caller can see beforehand: with nothing held or broken and every
      compliance date at most a minute away, the bucket ends up empty. */
  lemma EmptiesInTime(net: Net, s0: Server)
    requires Sane(net) && Sorted(s0.entries)
    requires Undisturbed(net, s0.calls, Emptying(net, s0, false).server.calls)
    requires forall e :: e in s0.entries ==>
               !e.hold && !e.broken && (e.mode == Compliance ==> e.until <= Now(net, s0) + MINUTE)
    ensures Emptying(net, s0, false).err == NoError && Emptying(net, s0, false).server.entries == []
  {
    EmptyingKeeps(net, s0, false);
    EmptyingMeans(net, s0);
  }

  lemma BothPasses(net: Net, s0: Server, s1: Server, s2: Server, s3: Server)
    requires Sane(net) && Spares(net, s0, s1) && Spares(net, s2, s3) && s2.entries == s1.entries
    requires s1.calls <= s2.calls <= s3.calls && s1.slept <= s2.slept <= s3.slept
    ensures Spares(net, s0, s3)
  {
    NowGrows(net, s1, s2);
    NowGrows(net, s2, s3);
    SparesChain(net, s0, s1, s2);
    SparesChain(net, s0, s2, s3);
  }

  // ----- The teardown around it -----

  lemma EmptyingLater(net: Net, s: Server)
    requires Sane(net) && Sorted(s.entries)
    ensures Sorted(Emptying(net, s, false).server.entries) && Now(net, s) <= Now(net, Emptying(net, s, false).server)
  {
    EmptyingKeeps(net, s, false);
  }

  /** `last` is the server when the last attempt began. */
  datatype Torn = Torn(server: Server, err: Error, attempts: nat, last: Server)

  /** Empties the bucket, again and again while the server asks for less load and
      it is not past the deadline; `k` attempts were made before. */
  ghost function Tearing(net: Net, s: Server, k: nat, deadline: nat, jitter: nat -> nat): Torn
    requires Sane(net) && Sorted(s.entries)
    decreases if Now(net, s) > deadline then 0 else deadline + 1 - Now(net, s)
  {
    EmptyingLater(net, s);
    var c := Emptying(net, s, false);
    if c.err != CallFailed(true) || Now(net, c.server) > deadline then Torn(c.server, c.err, k + 1, s)
    else
      Retry.DelayBound(k);
      Tearing(net, Slept(c.server, k, jitter), k + 1, deadline, jitter)
  }

  /** The server after the k-th wait. */
  function Slept(s: Server, k: nat, jitter: nat -> nat): Server {
    s.(slept := s.slept + Retry.Delay(k) + jitter(k))
  }

  lemma TearingOnce(net: Net, s: Server, k: nat, deadline: nat, jitter: nat -> nat)
    requires Sane(net) && Sorted(s.entries) && Sorted(Emptying(net, s, false).server.entries)
    ensures var c := Emptying(net, s, false);
            Tearing(net, s, k, deadline, jitter)
            == if c.err != CallFailed(true) || Now(net, c.server) > deadline then Torn(c.server, c.err, k + 1, s)
               else Tearing(net, Slept(c.server, k, jitter), k + 1, deadline, jitter)
  {
  }

  /** `nuke`, with the loop of retry.go. */
  method Teardown(net: Net, s0: Server, jitter: nat -> nat) returns (s: Server, err: Error, attempts: nat)
    requires Sane(net) && Sorted(s0.entries)
    ensures var t := Tearing(net, s0, 0, Now(net, s0) + Retry.BUDGET, jitter);
            s == t.server && err == t.err && attempts == t.attempts
  {
    hide Emptying, Tearing;
    var delay, deadline := Retry.FIRST_DELAY, Now(net, s0) + Retry.BUDGET;
    attempts, s := 0, s0;
    while true
      invariant Sorted(s.entries) && delay == Retry.Delay(attempts)
      invariant Tearing(net, s, attempts, deadline, jitter) == Tearing(net, s0, 0, deadline, jitter)
      decreases if Now(net, s) > deadline then 0 else deadline + 1 - Now(net, s)
    {
      EmptyingLater(net, s);
      TearingOnce(net, s, attempts, deadline, jitter);
      s, err := EmptyBucket(net, s, false);
      attempts := attempts + 1;
      if err != CallFailed(true) || Now(net, s) > deadline {
        return;
      }
      Retry.DelayBound(attempts - 1);
      s := s.(slept := s.slept + delay + jitter(attempts - 1));
      if delay < Retry.DELAY_CAP {
        delay := delay * 2;
      }
    }
  }

  /** The k-th attempt may begin at `s`. */
  ghost predicate Retrying(net: Net, s0: Server, s: Server, k: nat) {
    && Sorted(s.entries) && s.calls >= s0.calls && s.slept >= s0.slept + Retry.Waited(k) && (k == 0 ==> s == s0)
    && Spares(net, s0, s) && forall e :: e in s.entries ==> e in s0.entries
  }

  lemma RetryingNext(net: Net, s0: Server, s: Server, k: nat, jitter: nat -> nat)
    requires Sane(net) && Retrying(net, s0, s, k)
    ensures var t := Emptying(net, s, false).server;
            && Sorted(t.entries) && Retrying(net, s0, Slept(t, k, jitter), k + 1)
            && s.calls <= t.calls && s.slept <= t.slept && Now(net, s) <= Now(net, t)
            && Spares(net, s0, t) && (forall e :: e in t.entries ==> e in s.entries)
            && (Now(net, t) <= Now(net, s0) + Retry.BUDGET ==> k <= 10)
  {
    var t := Emptying(net, s, false).server;
    EmptyingKeeps(net, s, false);
    BothPasses(net, s0, s, s, t);
    SparesChain(net, s0, t, Slept(t, k, jitter));
    if Now(net, t) <= Now(net, s0) + Retry.BUDGET {
      OneOfEleven(net, s0, t, k);
    }
  }

  /** What a teardown that began at `s0` comes to when its last attempt is `t`. */
  ghost predicate TornDown(net: Net, s0: Server, t: Torn) {
    && 1 <= t.attempts <= 12 && Retrying(net, s0, t.last, t.attempts - 1)
    && t.last.calls <= t.server.calls && Spares(net, s0, t.server)
    && (forall e :: e in t.server.entries ==> e in t.last.entries)
    && (t.err == CallFailed(true) ==> Now(net, t.server) > Now(net, s0) + Retry.BUDGET)
  }

  lemma {:induction false} TearingKeeps(net: Net, s0: Server, s: Server, k: nat, jitter: nat -> nat)
    requires Sane(net) && Sorted(s.entries) && Retrying(net, s0, s, k) && k <= 11
    ensures var t := Tearing(net, s, k, Now(net, s0) + Retry.BUDGET, jitter);
            && TornDown(net, s0, t) && Sorted(t.last.entries)
            && Emptied(t.server, t.err) == Emptying(net, t.last, false)
    decreases 12 - k
  {
    hide Emptying, Tearing, Spares, Retrying, Retry.Waited;
    var c := Emptying(net, s, false);
    RetryingNext(net, s0, s, k, jitter);
    TearingOnce(net, s, k, Now(net, s0) + Retry.BUDGET, jitter);
    if c.err == CallFailed(true) && Now(net, c.server) <= Now(net, s0) + Retry.BUDGET {
      TearingKeeps(net, s0, Slept(c.server, k, jitter), k + 1, jitter);
    }
  }

  /** At most 12 attempts are made, the first one at once and the k-th after k - 1
      waits at least as long as the table says, and the last one decides: it gave up
      on an overloaded server only past the budget. */
  lemma TearingMeans(net: Net, s0: Server, jitter: nat -> nat)
    requires Sane(net) && Sorted(s0.entries)
    ensures var t := Tearing(net, s0, 0, Now(net, s0) + Retry.BUDGET, jitter);
            && TornDown(net, s0, t) && Emptied(t.server, t.err) == Emptying(net, t.last, false)
  {
    TearingKeeps(net, s0, s0, 0, jitter);
  }

  /** The wait after attempt `k`, between its delay and twice that. */
  predicate Pause(k: nat, wait: int) {
    Retry.Delay(k) <= wait < 2 * Retry.Delay(k)
  }

  /** `starts` is the server as the attempts from the k-th on found it: each but the
      last was throttled within the budget, and the next began after one wait. */
  ghost predicate Retried(net: Net, starts: seq<Server>, k: nat, deadline: nat)
    requires Sane(net)
  {
    && (forall i :: 0 <= i < |starts| ==> Sorted(starts[i].entries))
    && forall i :: 0 <= i < |starts| - 1 ==>
         var c := Emptying(net, starts[i], false);
         && c.err == CallFailed(true) && Now(net, c.server) <= deadline
         && starts[i + 1] == c.server.(slept := starts[i + 1].slept)
         && Pause(k + i, starts[i + 1].slept - c.server.slept)
  }

  ghost predicate Jitters(jitter: nat -> nat) {
    forall k {:trigger jitter(k)} :: 0 <= k ==> jitter(k) < Retry.Delay(k)
  }

  lemma {:induction false} TearingRetries(net: Net, s0: Server, s: Server, k: nat, jitter: nat -> nat)
    returns (starts: seq<Server>)
    requires Sane(net) && Sorted(s.entries) && Retrying(net, s0, s, k) && k <= 11 && Jitters(jitter)
    ensures var deadline := Now(net, s0) + Retry.BUDGET;
            var t := Tearing(net, s, k, deadline, jitter);
            && Retried(net, starts, k, deadline)
            && |starts| + k == t.attempts && starts != [] && starts[0] == s && starts[|starts| - 1] == t.last
    decreases 12 - k
  {
    hide Emptying, Tearing, Spares, Retrying, Retry.Waited, Retry.Delay;
    var c, deadline := Emptying(net, s, false), Now(net, s0) + Retry.BUDGET;
    starts := [s];
    RetryingNext(net, s0, s, k, jitter);
    TearingOnce(net, s, k, deadline, jitter);
    if c.err == CallFailed(true) && Now(net, c.server) <= deadline {
      var next := Slept(c.server, k, jitter);
      var rest := TearingRetries(net, s0, next, k + 1, jitter);
      assert jitter(k) < Retry.Delay(k);
      RetriedCons(net, s, next, rest, k, deadline);
      starts := [s] + rest;
    }
  }

  lemma RetriedCons(net: Net, s: Server, next: Server, rest: seq<Server>, k: nat, deadline: nat)
    requires Sane(net) && Sorted(s.entries) && Retried(net, rest, k + 1, deadline) && rest != [] && rest[0] == next
    requires var c := Emptying(net, s, false);
             && c.err == CallFailed(true) && Now(net, c.server) <= deadline
             && next == c.server.(slept := next.slept) && Pause(k, next.slept - c.server.slept)
    ensures Retried(net, [s] + rest, k, deadline)
  {
    hide Emptying, Pause;
    var starts := [s] + rest;
    forall i | 0 <= i < |starts| ensures Sorted(starts[i].entries) {
      assert i > 0 ==> starts[i] == rest[i - 1];
    }
    forall i | 0 <= i < |starts| - 1
      ensures var c := Emptying(net, starts[i], false);
              && c.err == CallFailed(true) && Now(net, c.server) <= deadline
              && starts[i + 1] == c.server.(slept := starts[i + 1].slept)
              && Pause(k + i, starts[i + 1].slept - c.server.slept)
    {
      if i > 0 {
        assert starts[i] == rest[i - 1] && starts[i + 1] == rest[i];
        assert k + 1 + (i - 1) == k + i;
      }
    }
  }

  /** Every attempt before the last was throttled within the budget and followed by
      one wait, of its delay to twice that; nothing else happens in between. */
  lemma EachRetried(net: Net, s0: Server, jitter: nat -> nat) returns (starts: seq<Server>)
    requires Sane(net) && Sorted(s0.entries) && Jitters(jitter)
    ensures var deadline := Now(net, s0) + 30_000_000_000;
            var t := Tearing(net, s0, 0, deadline, jitter);
            && Retried(net, starts, 0, deadline)
            && |starts| == t.attempts > 0 && starts[0] == s0 && starts[|starts| - 1] == t.last
  {
    starts := TearingRetries(net, s0, s0, 0, jitter);
  }

  /** How long the waits have been when attempt `k` begins. */
  lemma {:induction false} WaitsAdd(net: Net, starts: seq<Server>, k: nat, deadline: nat)
    requires Sane(net) && Retried(net, starts, 0, deadline) && k < |starts|
    ensures starts[0].slept + Retry.Waited(k) <= starts[k].slept
            <= starts[0].slept + 2 * Retry.Waited(k) + k * MINUTE
  {
    if k > 0 {
      hide Emptying;
      WaitsAdd(net, starts, k - 1, deadline);
      SleepsAMinute(net, starts[k - 1]);
      OneWaitMore(k - 1, starts[k].slept - Emptying(net, starts[k - 1], false).server.slept);
      assert Pause(0 + (k - 1), starts[k].slept - Emptying(net, starts[k - 1], false).server.slept);
    }
  }

  lemma SleepsAMinute(net: Net, s: Server)
    requires Sane(net) && Sorted(s.entries)
    ensures s.slept <= Emptying(net, s, false).server.slept <= s.slept + MINUTE
  {
    EmptyingKeeps(net, s, false);
  }

  lemma OneWaitMore(k: nat, wait: int)
    requires Pause(k, wait)
    ensures Retry.Waited(k + 1) <= Retry.Waited(k) + wait
    ensures 2 * Retry.Waited(k) + k * MINUTE + MINUTE + wait <= 2 * Retry.Waited(k + 1) + (k + 1) * MINUTE
  {
  }

  /** If no call of the last attempt failed, its error is as for one cleanup, and
      without one exactly what was held or broken from the start is left. */
  lemma TearingEnds(net: Net, s0: Server, t: Torn)
    requires Sane(net) && Sorted(s0.entries)
    requires TornDown(net, s0, t) && Emptied(t.server, t.err) == Emptying(net, t.last, false)
    requires Undisturbed(net, t.last.calls, t.server.calls)
    ensures && (t.err == NoError || t.err == LockedTooLong)
            && (t.err == LockedTooLong <==>
                  exists e :: e in t.last.entries && OutlastsWait(e, Now(net, FullPass(net, t.last).server)))
            && (t.err == NoError ==> forall e :: e in s0.entries ==> (e in t.server.entries <==> e.hold || e.broken))
  {
    EmptyingMeans(net, t.last);
    if t.err == NoError {
      HeldLeft(net, s0, t);
    }
  }

  lemma HeldLeft(net: Net, s0: Server, t: Torn)
    requires TornDown(net, s0, t)
    requires forall e :: e in t.last.entries ==> (e in t.server.entries <==> e.hold || e.broken)
    ensures forall e :: e in s0.entries ==> (e in t.server.entries <==> e.hold || e.broken)
  {
    HeldStay(net, s0, t.server);
  }

  /** What a caller can see beforehand, for the whole teardown. */
  lemma TearsInTime(net: Net, s0: Server, jitter: nat -> nat)
    requires Sane(net) && Sorted(s0.entries)
    requires var t := Tearing(net, s0, 0, Now(net, s0) + Retry.BUDGET, jitter);
             Undisturbed(net, t.last.calls, t.server.calls)
    requires forall e :: e in s0.entries ==>
               !e.hold && !e.broken && (e.mode == Compliance ==> e.until <= Now(net, s0) + MINUTE)
    ensures var t := Tearing(net, s0, 0, Now(net, s0) + Retry.BUDGET, jitter);
            t.err == NoError && t.server.entries == []
  {
    TearingMeans(net, s0, jitter);
    var t := Tearing(net, s0, 0, Now(net, s0) + Retry.BUDGET, jitter);
    NowGrows(net, s0, t.last);
    EmptiesInTime(net, t.last);
  }

  lemma HeldStay(net: Net, s0: Server, s: Server)
    requires Spares(net, s0, s)
    ensures forall e :: e in s0.entries && (e.hold || e.broken) ==> e in s.entries
  {
    forall e | e in s0.entries && (e.hold || e.broken) ensures e in s.entries {
      assert Refuses(e, Now(net, s), true);
    }
  }

  /** An attempt that ends within the budget is one of the first eleven. */
  lemma OneOfEleven(net: Net, s0: Server, s: Server, k: nat)
    requires Sane(net) && s.calls >= s0.calls && s.slept >= s0.slept + Retry.Waited(k)
    requires Now(net, s) <= Now(net, s0) + Retry.BUDGET
    ensures k <= 10
  {
    if k >= 11 {
      Retry.WaitedGrows(11, k);
      Retry.ElevenWaits();
    }
  }

  /** How the latest date of the first pass decides the outcome. */
  lemma FirstPass(net: Net, s0: Server, s1: Server, at: map<nat, nat>, until: nat, end: nat)
    requires Sane(net) && end == Now(net, s1)
    requires forall e :: e in s0.entries ==>
               e.pos in at && at[e.pos] <= end && (e in s1.entries <==> Refuses(e, at[e.pos], true))
    requires forall e :: e in s1.entries ==> e in s0.entries
    requires forall e :: e in s1.entries ==> KnownDate(e, at[e.pos]) <= until
    requires until > 0 ==> exists e :: e in s1.entries && KnownDate(e, at[e.pos]) == until
    ensures until > end + MINUTE <==> exists e :: e in s0.entries && OutlastsWait(e, end)
    ensures until == 0 ==> forall e :: e in s0.entries ==> (e in s1.entries <==> e.hold || e.broken)
    ensures forall e :: e in s1.entries && !e.hold && !e.broken ==> e.mode == Compliance && e.until <= until
  {
    if until > end + MINUTE {
      var e :| e in s1.entries && KnownDate(e, at[e.pos]) == until;
      assert OutlastsWait(e, end);
    }
    if e :| e in s0.entries && OutlastsWait(e, end) {
      assert e in s1.entries && KnownDate(e, at[e.pos]) == e.until;
    }
  }

  /** Past the latest date only holds and broken entries still refuse. */
  lemma SecondPass(net: Net, s0: Server, s1: Server, s2: Server, s3: Server,
                   at: map<nat, nat>, again: map<nat, nat>, end: nat)
    requires forall e :: e in s0.entries ==> e.pos in at && (e in s1.entries <==> Refuses(e, at[e.pos], true))
    requires forall e :: e in s1.entries ==> e in s0.entries
    requires s2.entries == s1.entries
    requires forall e :: e in s1.entries && !e.hold && !e.broken ==> e.mode == Compliance && e.until <= Now(net, s2)
    requires forall e :: e in s2.entries ==>
               e.pos in again && Now(net, s2) <= again[e.pos] && (e in s3.entries <==> Refuses(e, again[e.pos], true))
    requires forall e :: e in s3.entries ==> e in s2.entries
    ensures forall e :: e in s0.entries ==> (e in s3.entries <==> e.hold || e.broken)
  {
  }

  /** When is nothing left? */
  lemma EmptyMeans(es: seq<Version>, left: seq<Version>, end: nat)
    requires forall e :: e in left ==> e in es
    requires forall e :: e in es ==> (e in left <==> e.hold || e.broken)
    ensures left == [] <==> forall e :: e in es ==> !e.hold && !e.broken
  {
    if left != [] {
      assert left[0] in left;
    }
  }
}
