/** The bucket as the cleaner sees it: a sorted list of versions and delete
    markers behind calls that may fail and that take time. */
module BucketServer {

  datatype Mode = Unlocked | Governance | Compliance

  /** A version or delete marker. `pos` is its place in listing order; a
      `broken` one refuses deletion for a reason that is not a lock. */
  datatype Version = Version(pos: nat, marker: bool, mode: Mode, until: nat, hold: bool, broken: bool)

  /** What the outside decides, by call number: the clock, how many entries a
      page holds, whether the call fails, and whether failing asks for less load. */
  datatype Net = Net(clock: nat -> nat, page: nat -> nat, fault: nat -> bool, throttled: nat -> bool)

  /** `slept` is the time spent waiting between calls. */
  datatype Server = Server(entries: seq<Version>, calls: nat, slept: nat)

  datatype Code = AccessDenied | OtherCode

  datatype Refusal = Refusal(pos: nat, code: Code)

  datatype Page = Page(versions: seq<Version>, markers: seq<Version>, truncated: bool, next: int)

  datatype Reply<+T> = Ok(value: T) | Fault

  ghost predicate Sane(net: Net) {
    && (forall i, j :: 0 <= i <= j ==> net.clock(i) <= net.clock(j))
    && (forall i :: 0 <= i ==> net.page(i) >= 1)
  }

  /** None of the calls from one number up to another fails. */
  ghost predicate Undisturbed(net: Net, from: nat, to: nat) {
    forall i :: from <= i < to ==> !net.fault(i)
  }

  predicate Sorted(es: seq<Version>) {
    forall i, j :: 0 <= i < j < |es| ==> es[i].pos < es[j].pos
  }

  function Now(net: Net, s: Server): nat {
    net.clock(s.calls) + s.slept
  }

  /** Refused because of a lock. */
  predicate Locked(v: Version, now: nat, bypass: bool) {
    || v.hold
    || (v.mode == Compliance && now < v.until)
    || (v.mode == Governance && !bypass && now < v.until)
  }

  predicate Refuses(v: Version, now: nat, bypass: bool) {
    v.broken || Locked(v, now, bypass)
  }

  function Reason(v: Version, now: nat, bypass: bool): Code {
    if Locked(v, now, bypass) then AccessDenied else OtherCode
  }

  function Beyond(es: seq<Version>, marker: int): seq<Version> {
    if es == [] then []
    else (if es[0].pos > marker then [es[0]] else []) + Beyond(es[1..], marker)
  }

  function OfKind(es: seq<Version>, marker: bool): seq<Version> {
    if es == [] then []
    else (if es[0].marker == marker then [es[0]] else []) + OfKind(es[1..], marker)
  }

  function PageOf(es: seq<Version>, marker: int, size: nat): Page
    requires size >= 1
  {
    var rest := Beyond(es, marker);
    var shown := if size < |rest| then rest[..size] else rest;
    Page(OfKind(shown, false), OfKind(shown, true), size < |rest|,
         if shown == [] then marker else shown[|shown| - 1].pos)
  }

  /** The entries a batch leaves. */
  function Kept(es: seq<Version>, ids: seq<nat>, now: nat, bypass: bool): seq<Version> {
    if es == [] then []
    else (if es[0].pos in ids && !Refuses(es[0], now, bypass) then [] else [es[0]]) + Kept(es[1..], ids, now, bypass)
  }

  function Find(es: seq<Version>, pos: nat): seq<Version> {
    if es == [] then [] else if es[0].pos == pos then [es[0]] else Find(es[1..], pos)
  }

  /** The refusals of a batch, in its order; an absent entry deletes without complaint. */
  function Refused(es: seq<Version>, ids: seq<nat>, now: nat, bypass: bool): seq<Refusal> {
    if ids == [] then []
    else
      var v := Find(es, ids[0]);
      (if v != [] && Refuses(v[0], now, bypass) then [Refusal(ids[0], Reason(v[0], now, bypass))] else [])
      + Refused(es, ids[1..], now, bypass)
  }

  function RetentionOf(es: seq<Version>, pos: nat): nat {
    var v := Find(es, pos);
    if v == [] || v[0].mode == Unlocked then 0 else v[0].until
  }

  function Used(s: Server): Server {
    s.(calls := s.calls + 1)
  }

  // ----- The calls -----

  function ListVersions(net: Net, s: Server, marker: int): Reply<Page>
    requires Sane(net)
  {
    if net.fault(s.calls) then Fault else Ok(PageOf(s.entries, marker, net.page(s.calls)))
  }

  function DeleteObjects(net: Net, s: Server, ids: seq<nat>, bypass: bool): (Server, Reply<seq<Refusal>>) {
    if net.fault(s.calls) then (Used(s), Fault)
    else
      (Used(s).(entries := Kept(s.entries, ids, Now(net, s), bypass)),
       Ok(Refused(s.entries, ids, Now(net, s), bypass)))
  }

  function GetRetention(net: Net, s: Server, pos: nat): Reply<nat> {
    if net.fault(s.calls) then Fault else Ok(RetentionOf(s.entries, pos))
  }

  // ----- What they mean, entry by entry -----

  lemma {:induction false} BeyondMeans(es: seq<Version>, marker: int)
    requires Sorted(es)
    ensures forall e :: e in Beyond(es, marker) <==> e in es && e.pos > marker
    ensures Sorted(Beyond(es, marker))
  {
    if es != [] {
      BeyondMeans(es[1..], marker);
      assert es == [es[0]] + es[1..];
      forall e | e in Beyond(es[1..], marker) ensures es[0].pos < e.pos {
        assert e in es[1..];
      }
    }
  }

  lemma {:induction false} BeyondShrinks(es: seq<Version>, m: int, n: int)
    requires m <= n
    ensures |Beyond(es, n)| <= |Beyond(es, m)|
    ensures (exists e :: e in es && m < e.pos <= n) ==> |Beyond(es, n)| < |Beyond(es, m)|
  {
    if es != [] {
      BeyondShrinks(es[1..], m, n);
      if e :| e in es && m < e.pos <= n {
        assert e == es[0] || e in es[1..];
      }
    }
  }

  lemma {:induction false} OfKindMeans(es: seq<Version>, marker: bool)
    ensures forall e :: e in OfKind(es, marker) <==> e in es && e.marker == marker
  {
    if es != [] {
      OfKindMeans(es[1..], marker);
    }
  }

  lemma {:induction false} OfKindSorted(es: seq<Version>, marker: bool)
    requires Sorted(es)
    ensures Sorted(OfKind(es, marker))
  {
    if es != [] {
      OfKindSorted(es[1..], marker);
      OfKindMeans(es[1..], marker);
    }
  }

  predicate DistinctPlaces(vs: seq<Version>) {
    forall i, j :: 0 <= i < j < |vs| ==> vs[i].pos != vs[j].pos
  }

  /** What a page shows, versions first and markers after, in terms of the
      entries shown: no place comes twice. */
  lemma KindsApart(shown: seq<Version>)
    requires Sorted(shown)
    ensures DistinctPlaces(OfKind(shown, false) + OfKind(shown, true))
  {
    var vs, ms := OfKind(shown, false), OfKind(shown, true);
    OfKindSorted(shown, false);
    OfKindSorted(shown, true);
    OfKindMeans(shown, false);
    OfKindMeans(shown, true);
    forall i, j | 0 <= i < |vs| && 0 <= j < |ms| ensures vs[i].pos != ms[j].pos {
      assert vs[i] in vs && ms[j] in ms;
      var k :| 0 <= k < |shown| && shown[k] == vs[i];
      var l :| 0 <= l < |shown| && shown[l] == ms[j];
    }
  }

  /** The entries a page shows are the next ones in listing order. */
  lemma ShownMeans(es: seq<Version>, marker: int, size: nat, shown: seq<Version>)
    requires Sorted(es) && size >= 1
    requires var rest := Beyond(es, marker); shown == if size < |rest| then rest[..size] else rest
    ensures Sorted(shown) && forall e :: e in shown ==> e in es && e.pos > marker
    ensures var last := if shown == [] then marker else shown[|shown| - 1].pos;
            && marker <= last
            && (forall e :: e in shown <==> e in es && marker < e.pos <= last)
  {
    var rest := Beyond(es, marker);
    BeyondMeans(es, marker);
    PrefixShows(rest, shown);
    forall e | e in shown ensures e in es && e.pos > marker {
      assert e in rest;
    }
    if shown != [] {
      assert shown[|shown| - 1] in shown;
    }
  }

  /** A prefix of a sorted list holds what comes no later than its last entry. */
  lemma PrefixShows(rest: seq<Version>, shown: seq<Version>)
    requires Sorted(rest) && |shown| <= |rest| && shown == rest[..|shown|]
    ensures Sorted(shown) && forall e :: e in shown ==> e in rest
    ensures shown != [] ==> forall e :: e in rest ==> (e in shown <==> e.pos <= shown[|shown| - 1].pos)
  {
    if shown != [] {
      forall e | e in rest ensures e in shown <==> e.pos <= shown[|shown| - 1].pos {
        var i :| 0 <= i < |rest| && rest[i] == e;
        if i < |shown| {
          assert shown[i] == e;
        }
      }
    }
  }

  /** A page shows exactly the entries after the marker up to the next one. */
  lemma PageMeans(es: seq<Version>, marker: int, size: nat)
    requires Sorted(es) && size >= 1
    ensures var p := PageOf(es, marker, size);
            && marker <= p.next
            && (forall e :: e in p.versions + p.markers <==> e in es && marker < e.pos <= p.next)
            && DistinctPlaces(p.versions + p.markers)
            && (p.truncated ==> exists e :: e in es && marker < e.pos <= p.next)
            && (!p.truncated ==> forall e :: e in es ==> e.pos <= p.next || e.pos <= marker)
  {
    var rest := Beyond(es, marker);
    var shown := if size < |rest| then rest[..size] else rest;
    ShownMeans(es, marker, size, shown);
    BothKinds(shown);
    KindsApart(shown);
    if size < |rest| {
      assert shown[0] in shown;
    } else {
      BeyondMeans(es, marker);
    }
  }

  lemma BothKinds(shown: seq<Version>)
    ensures forall e :: e in OfKind(shown, false) + OfKind(shown, true) <==> e in shown
  {
    OfKindMeans(shown, false);
    OfKindMeans(shown, true);
  }

  lemma {:induction false} KeptMeans(es: seq<Version>, ids: seq<nat>, now: nat, bypass: bool)
    requires Sorted(es)
    ensures forall e :: e in Kept(es, ids, now, bypass) <==> e in es && (e.pos in ids ==> Refuses(e, now, bypass))
    ensures Sorted(Kept(es, ids, now, bypass))
  {
    if es != [] {
      KeptMeans(es[1..], ids, now, bypass);
      forall e | e in Kept(es[1..], ids, now, bypass) ensures es[0].pos < e.pos {
        assert e in es[1..];
      }
    }
  }

  lemma {:induction false} FindMeans(es: seq<Version>, e: Version)
    requires Sorted(es) && e in es
    ensures Find(es, e.pos) == [e]
  {
    if es[0].pos != e.pos {
      FindMeans(es[1..], e);
    } else {
      var i :| 0 <= i < |es| && es[i] == e;
    }
  }

  lemma {:induction false} FindSome(es: seq<Version>, pos: nat)
    ensures Find(es, pos) != [] ==> Find(es, pos)[0] in es && Find(es, pos)[0].pos == pos
  {
    if es != [] {
      FindSome(es[1..], pos);
    }
  }

  /** A batch's refusals are exactly its entries that refuse, with the reason. */
  lemma {:induction false} RefusedMeans(es: seq<Version>, ids: seq<nat>, now: nat, bypass: bool)
    requires Sorted(es)
    ensures forall e :: e in es && e.pos in ids && Refuses(e, now, bypass) ==>
                          Refusal(e.pos, Reason(e, now, bypass)) in Refused(es, ids, now, bypass)
    ensures forall r :: r in Refused(es, ids, now, bypass) ==>
                          exists e :: e in es && e.pos == r.pos && e.pos in ids && Refuses(e, now, bypass)
                                      && r.code == Reason(e, now, bypass)
  {
    if ids != [] {
      RefusedMeans(es, ids[1..], now, bypass);
      FindSome(es, ids[0]);
      forall e | e in es && e.pos in ids && Refuses(e, now, bypass)
        ensures Refusal(e.pos, Reason(e, now, bypass)) in Refused(es, ids, now, bypass)
      {
        if e.pos == ids[0] {
          FindMeans(es, e);
        }
      }
      forall r | r in Refused(es, ids, now, bypass)
        ensures exists e :: e in es && e.pos == r.pos && e.pos in ids && Refuses(e, now, bypass)
                            && r.code == Reason(e, now, bypass)
      {
        if r in Refused(es, ids[1..], now, bypass) {
          var e :| e in es && e.pos == r.pos && e.pos in ids[1..] && Refuses(e, now, bypass)
                   && r.code == Reason(e, now, bypass);
          assert e.pos in ids;
        } else {
          var e := Find(es, ids[0])[0];
          assert e.pos in ids;
        }
      }
    }
  }

  predicate NoRepeats(ids: seq<nat>) {
    forall i, j :: 0 <= i < j < |ids| ==> ids[i] != ids[j]
  }

  /** No entry is refused twice. */
  predicate Once(refused: seq<Refusal>) {
    forall i, j :: 0 <= i < j < |refused| ==> refused[i].pos != refused[j].pos
  }

  /** A batch that names no entry twice is not refused any twice. */
  lemma {:induction false} RefusedOnce(es: seq<Version>, ids: seq<nat>, now: nat, bypass: bool)
    requires NoRepeats(ids)
    ensures Once(Refused(es, ids, now, bypass))
    ensures forall r :: r in Refused(es, ids, now, bypass) ==> r.pos in ids
  {
    if ids != [] {
      var rest := Refused(es, ids[1..], now, bypass);
      RefusedOnce(es, ids[1..], now, bypass);
      forall r | r in rest ensures r.pos != ids[0] && r.pos in ids {
        var i :| 0 <= i < |ids[1..]| && ids[1..][i] == r.pos;
        assert ids[i + 1] == r.pos;
      }
      forall j | 0 <= j < |rest| ensures rest[j].pos != ids[0] {
        assert rest[j] in rest;
      }
    }
  }
}
