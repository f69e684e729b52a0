/** The registry of tests (registry.go) and the selection made from it (select.go). */
module Registry {
  import opened Tests
  import opened Text
  import opened Sorting
  import opened Results
  import Markers

  const MODULE_S3 := "s3tests/functional/test_s3.py"
  const MODULE_HEADERS := "s3tests/functional/test_headers.py"

  const SEPARATOR := "::"
  const TEST_PREFIX := "test_"

  function NodeID(t: Test): string {
    t.file + SEPARATOR + TEST_PREFIX + t.name
  }

  datatype Fault = NoName | NoBody | UnknownModule | Duplicate | NotANodeID | NoSuchTest | OtherModule | EmptyList

  type Answer<+T> = Results.Result<T, Fault>

  type ByName = map<string, Test>

  predicate KnownFile(file: string) {
    file == MODULE_S3 || file == MODULE_HEADERS
  }

  predicate Complete(t: Test) {
    t.name != "" && t.hasBody && KnownFile(t.file)
  }

  /** Every entry is a complete test under its own name. */
  predicate Valid(m: ByName) {
    forall name :: name in m ==> m[name].name == name && Complete(m[name])
  }

  /** What is wrong with the k-th test, given those before it. */
  function Flaw(tests: seq<Test>, k: nat): Option<Fault>
    requires k < |tests|
  {
    if tests[k].name == "" then Some(NoName)
    else if !tests[k].hasBody then Some(NoBody)
    else if !KnownFile(tests[k].file) then Some(UnknownModule)
    else if exists j :: 0 <= j < k && tests[j].name == tests[k].name then Some(Duplicate)
    else None
  }

  /** Each kind of flaw, the first that applies. */
  lemma FlawMeans(tests: seq<Test>, k: nat)
    requires k < |tests|
    ensures var (t, f) := (tests[k], Flaw(tests, k));
            && (f == None <==> Complete(t) && forall j :: 0 <= j < k ==> tests[j].name != t.name)
            && (f == Some(NoName) ==> t.name == "")
            && (f == Some(NoBody) ==> t.name != "" && !t.hasBody)
            && (f == Some(UnknownModule) ==> t.name != "" && t.hasBody && t.file !in [MODULE_S3, MODULE_HEADERS])
            && (f == Some(Duplicate) ==> Complete(t) && exists j :: 0 <= j < k && tests[j].name == t.name)
            && (f.Some? ==> f.value in [NoName, NoBody, UnknownModule, Duplicate])
  {
  }

  /** Collecting succeeds exactly on complete tests of distinct names, and then
      holds exactly those; it fails with the first flaw of the first flawed test. */
  method NewRegistry(tests: seq<Test>) returns (r: Answer<ByName>)
    ensures r.Ok? <==> (forall i :: 0 <= i < |tests| ==> Complete(tests[i]))
                       && (forall i, j :: 0 <= i < j < |tests| ==> tests[i].name != tests[j].name)
    ensures r.Err? ==> exists k :: 0 <= k < |tests| && Flaw(tests, k) == Some(r.error)
                                   && forall j :: 0 <= j < k ==> Flaw(tests, j) == None
    ensures r.Ok? ==> Valid(r.value)
    ensures r.Ok? ==> forall i :: 0 <= i < |tests| ==> tests[i].name in r.value && r.value[tests[i].name] == tests[i]
    ensures r.Ok? ==> forall name :: name in r.value ==> r.value[name] in tests
  {
    var byName: ByName := map[];
    for i := 0 to |tests|
      invariant forall j :: 0 <= j < i ==> Complete(tests[j]) && Flaw(tests, j) == None
      invariant forall j, k :: 0 <= j < k < i ==> tests[j].name != tests[k].name
      invariant Valid(byName)
      invariant forall j :: 0 <= j < i ==> tests[j].name in byName && byName[tests[j].name] == tests[j]
      invariant forall name :: name in byName ==> byName[name] in tests[..i]
    {
      var t := tests[i];
      ghost var flaw := Flaw(tests, i);
      if t.name == "" {
        return Err(NoName);
      }
      if !t.hasBody {
        return Err(NoBody);
      }
      if t.file != MODULE_S3 && t.file != MODULE_HEADERS {
        return Err(UnknownModule);
      }
      if t.name in byName {
        assert byName[t.name] in tests[..i];
        var j :| 0 <= j < i && tests[..i][j] == byName[t.name];
        assert tests[j].name == t.name;
        return Err(Duplicate);
      }
      byName := byName[t.name := t];
    }
    return Ok(byName);
  }

  /** Every test once, ascending by name: the only such list. */
  ghost predicate IsListing(m: ByName, ts: seq<Test>) {
    && (forall i, j :: 0 <= i < j < |ts| ==> Less(ts[i].name, ts[j].name))
    && (forall t :: t in ts <==> t.name in m && m[t.name] == t)
  }

  /** So the order the map is gone through in does not show. */
  lemma ListingUnique(m: ByName, ts: seq<Test>, us: seq<Test>)
    requires IsListing(m, ts) && IsListing(m, us)
    ensures ts == us
  {
    var xs := seq(|ts|, i requires 0 <= i < |ts| => ts[i].name);
    var ys := seq(|us|, i requires 0 <= i < |us| => us[i].name);
    forall s ensures s in xs <==> s in ys {
      if s in xs {
        var i :| 0 <= i < |xs| && xs[i] == s;
        assert ts[i] in us;
        var j :| 0 <= j < |us| && us[j] == ts[i];
        assert ys[j] == s;
      }
      if s in ys {
        var i :| 0 <= i < |ys| && ys[i] == s;
        assert us[i] in ts;
        var j :| 0 <= j < |ts| && ts[j] == us[i];
        assert xs[j] == s;
      }
    }
    AscendingUnique(xs, ys);
    assert |ts| == |us|;
    forall i | 0 <= i < |ts| ensures ts[i] == us[i] {
      assert xs[i] == ys[i] && ts[i] in ts && us[i] in us;
    }
  }

  method All(m: ByName, order: seq<string>) returns (ts: seq<Test>)
    requires Valid(m) && Enumerates(order, m.Keys)
    ensures IsListing(m, ts)
  {
    SortMeans(order);
    ts := [];
    var names := Sort(order);
    for i := 0 to |names|
      invariant |ts| == i && forall j :: 0 <= j < i ==> ts[j] == m[names[j]]
    {
      assert names[i] in names;
      ts := ts + [m[names[i]]];
    }
    forall t: Test | t.name in m && m[t.name] == t ensures t in ts {
      assert t.name in names;
      var i :| 0 <= i < |names| && names[i] == t.name;
      assert ts[i] == t;
    }
    forall i | 0 <= i < |ts| ensures ts[i].name == names[i] {
      assert names[i] in names;
    }
  }

  // ----- Node IDs -----

  /** The first "::", or the length. */
  function FindSeparator(s: string): (i: nat)
    ensures i <= |s|
    ensures i < |s| ==> i + 2 <= |s| && s[i] == ':' && s[i + 1] == ':'
  {
    if |s| < 2 then |s|
    else if s[0] == ':' && s[1] == ':' then 0
    else 1 + FindSeparator(s[1..])
  }

  function TrimPrefix(s: string, prefix: string): string {
    if prefix <= s then s[|prefix|..] else s
  }

  function ResolveOne(m: ByName, id: string): Answer<Test> {
    var i := FindSeparator(id);
    if i == |id| then Err(NotANodeID)
    else
      var name := TrimPrefix(id[i + 2..], TEST_PREFIX);
      if name !in m then Err(NoSuchTest)
      else if m[name].file != id[..i] then Err(OtherModule)
      else Ok(m[name])
  }

  function ResolveAll(m: ByName, ids: seq<string>): (r: Answer<seq<Test>>)
    ensures r.Ok? ==> |r.value| == |ids|
  {
    if ids == [] then Ok([])
    else
      match ResolveOne(m, ids[0])
      case Err(f) => Err(f)
      case Ok(t) =>
        match ResolveAll(m, ids[1..])
        case Err(f) => Err(f)
        case Ok(ts) => Ok([t] + ts)
  }

  method Resolve(m: ByName, ids: seq<string>) returns (r: Answer<seq<Test>>)
    ensures r == ResolveAll(m, ids)
  {
    var out: seq<Test> := [];
    for i := 0 to |ids|
      invariant ResolveAll(m, ids).Err? <==> ResolveAll(m, ids[i..]).Err?
      invariant ResolveAll(m, ids).Err? ==> ResolveAll(m, ids) == ResolveAll(m, ids[i..])
      invariant ResolveAll(m, ids).Ok? ==> ResolveAll(m, ids).value == out + ResolveAll(m, ids[i..]).value
    {
      assert ids[i..][1..] == ids[i + 1..];
      var one := ResolveOne(m, ids[i]);
      if one.Err? {
        return Err(one.error);
      }
      out := out + [one.value];
    }
    assert ids[|ids|..] == [] && out + [] == out;
    return Ok(out);
  }

  /** What `ResolveAll` amounts to: every ID resolved in its own place, or the
      first fault there is. */
  lemma {:induction false} ResolveAllMeans(m: ByName, ids: seq<string>)
    ensures var r := ResolveAll(m, ids);
            && (r.Ok? ==> |r.value| == |ids| && forall i :: 0 <= i < |ids| ==> ResolveOne(m, ids[i]) == Ok(r.value[i]))
            && (r.Err? ==> exists k :: 0 <= k < |ids| && ResolveOne(m, ids[k]) == Err(r.error)
                                       && forall i :: 0 <= i < k ==> ResolveOne(m, ids[i]).Ok?)
  {
    if ids != [] {
      var rest := ids[1..];
      ResolveAllMeans(m, rest);
      var r, tail := ResolveAll(m, ids), ResolveAll(m, rest);
      assert forall i :: 0 < i < |ids| ==> ids[i] == rest[i - 1];
      if r.Ok? {
        assert forall i :: 0 < i < |ids| ==> r.value[i] == tail.value[i - 1];
      } else if ResolveOne(m, ids[0]).Ok? {
        var k :| 0 <= k < |rest| && ResolveOne(m, rest[k]) == Err(tail.error)
                 && forall i :: 0 <= i < k ==> ResolveOne(m, rest[i]).Ok?;
        assert ResolveOne(m, ids[k + 1]) == Err(r.error);
      } else {
        assert ResolveOne(m, ids[0]) == Err(r.error);
      }
    }
  }

  /** Whether an ID has the separator at all. */
  predicate Separated(id: string) {
    exists i :: 0 <= i < |id| - 1 && id[i] == ':' && id[i + 1] == ':'
  }

  lemma {:induction false} NotSeparated(id: string)
    ensures FindSeparator(id) == |id| <==> !Separated(id)
  {
    if |id| >= 2 {
      NotSeparated(id[1..]);
      if i :| 0 <= i < |id| - 1 && id[i] == ':' && id[i + 1] == ':' {
        assert i > 0 ==> id[1..][i - 1] == ':' && id[1..][i] == ':';
      }
      if i :| 0 <= i < |id[1..]| - 1 && id[1..][i] == ':' && id[1..][i + 1] == ':' {
        assert id[i + 1] == ':' && id[i + 2] == ':';
      }
    }
  }

  /** Why an ID does not resolve: it has no separator; or what follows the module,
      with the prefix or without, is no registered test; or it is one, of another
      module. */
  lemma ResolveFaults(m: ByName, file: string, name: string, id: string)
    requires Valid(m) && ':' !in file && !(TEST_PREFIX <= name)
    requires id == file + "::" + name || id == file + "::" + "test_" + name
    ensures name !in m ==> ResolveOne(m, id) == Err(NoSuchTest)
    ensures name in m && m[name].file != file ==> ResolveOne(m, id) == Err(OtherModule)
    ensures name in m && m[name].file == file ==> ResolveOne(m, id) == Ok(m[name])
    ensures forall other :: ResolveOne(m, other) == Err(NotANodeID) <==> !Separated(other)
  {
    var tail := if id == file + "::" + name then name else "test_" + name;
    assert id == file + ("::" + tail);
    SeparatorAfter(file, "::" + tail);
    assert id[..|file|] == file && id[|file| + 2..] == tail;
    PrefixGone(name);
    forall other ensures ResolveOne(m, other) == Err(NotANodeID) <==> !Separated(other) {
      NotSeparated(other);
    }
  }

  /** The spellings a registered test answers to: its node ID, and the ID
      without the prefix unless the name brings that prefix itself. */
  predicate Spells(id: string, t: Test) {
    id == NodeID(t) || (id == t.file + SEPARATOR + t.name && !(TEST_PREFIX <= t.name))
  }

  lemma TailFound(file: string, tail: string)
    requires KnownFile(file)
    ensures var id := file + SEPARATOR + tail;
            FindSeparator(id) == |file| && |file| < |id| && id[..|file|] == file && id[|file| + 2..] == tail
  {
    SeparatorAfter(file, SEPARATOR + tail);
    assert file + SEPARATOR + tail == file + (SEPARATOR + tail);
  }

  /** An ID resolves to a test exactly when it spells that test and the test is registered. */
  lemma ResolveOneMeans(m: ByName, id: string, t: Test)
    requires Valid(m)
    ensures ResolveOne(m, id) == Ok(t) <==> t.name in m && m[t.name] == t && Spells(id, t)
  {
    if ResolveOne(m, id) == Ok(t) {
      ResolvedSpells(m, id, t);
    }
    if t.name in m && m[t.name] == t && Spells(id, t) {
      SpelledResolves(m, id, t);
    }
  }

  lemma ResolvedSpells(m: ByName, id: string, t: Test)
    requires Valid(m) && ResolveOne(m, id) == Ok(t)
    ensures t.name in m && m[t.name] == t && Spells(id, t)
  {
    var i := FindSeparator(id);
    SplitId(id, i);
    PrefixBack(id[i + 2..], t.name);
    SpelledOut(t);
  }

  lemma SpelledResolves(m: ByName, id: string, t: Test)
    requires Valid(m) && t.name in m && m[t.name] == t && Spells(id, t)
    ensures ResolveOne(m, id) == Ok(t)
  {
    SpelledOut(t);
    PrefixGone(t.name);
    TailFound(t.file, if id == NodeID(t) then TEST_PREFIX + t.name else t.name);
  }

  lemma SplitId(id: string, i: nat)
    requires i + 2 <= |id| && id[i] == ':' && id[i + 1] == ':'
    ensures id == id[..i] + SEPARATOR + id[i + 2..]
  {
  }

  lemma SpelledOut(t: Test)
    ensures NodeID(t) == t.file + SEPARATOR + (TEST_PREFIX + t.name)
  {
  }

  lemma PrefixBack(tail: string, name: string)
    requires TrimPrefix(tail, TEST_PREFIX) == name
    ensures tail == TEST_PREFIX + name || (tail == name && !(TEST_PREFIX <= name))
  {
    if TEST_PREFIX <= tail {
      assert tail == tail[..|TEST_PREFIX|] + tail[|TEST_PREFIX|..];
    }
  }

  lemma PrefixGone(name: string)
    ensures TrimPrefix(TEST_PREFIX + name, TEST_PREFIX) == name
  {
  }

  // ----- Allow-lists -----

  /** A line without its comment and the white space around it. */
  function Clip(line: string): string {
    Trim(line[..IndexOf(line, '#')])
  }

  function ListedIn(lines: seq<string>): seq<string> {
    if lines == [] then []
    else (if Clip(lines[0]) == "" then [] else [Clip(lines[0])]) + ListedIn(lines[1..])
  }

  /** What a line lists: what stands before the first comment sign, the white
      space around it left out. */
  lemma ClipMeans(p: string, entry: string, q: string, comment: string)
    requires Spaces(p) && Spaces(q) && Trimmed(entry) && '#' !in entry && (comment == "" || comment[0] == '#')
    ensures Clip(p + entry + q + comment) == entry
  {
    var line, text := p + entry + q + comment, p + entry + q;
    assert '#' !in p && '#' !in q;
    NoSign(text, comment);
    assert line[..|text|] == text;
    TrimPadded(p, entry, q);
  }

  lemma NoSign(text: string, comment: string)
    requires '#' !in text && (comment == "" || comment[0] == '#')
    ensures IndexOf(text + comment, '#') == |text|
  {
    var line := text + comment;
    assert forall j :: 0 <= j < |text| ==> line[j] == text[j];
    assert comment != "" ==> line[|text|] == '#';
  }

  /** Every line is of that form. */
  lemma ClipSplits(line: string) returns (p: string, q: string, comment: string)
    ensures Spaces(p) && Spaces(q) && Trimmed(Clip(line)) && '#' !in Clip(line)
    ensures (comment == "" || comment[0] == '#') && line == p + Clip(line) + q + comment
  {
    var i := IndexOf(line, '#');
    p, q := TrimSplits(line[..i]);
    comment := line[i..];
    assert line == line[..i] + comment && '#' !in line[..i];
    assert forall c :: c in Clip(line) ==> c in line[..i];
  }

  /** `picks` are places of `lines`, ascending, and `out` is what is listed there. */
  ghost predicate ListedAt(out: seq<string>, lines: seq<string>, picks: seq<nat>) {
    && |picks| == |out|
    && (forall k :: 0 <= k < |picks| ==> picks[k] < |lines| && out[k] == Clip(lines[picks[k]]))
    && (forall j, k :: 0 <= j < k < |picks| ==> picks[j] < picks[k])
  }

  /** Of the places of `lines`, exactly those that list something. */
  ghost predicate PicksListing(lines: seq<string>, picks: seq<nat>) {
    forall i :: 0 <= i < |lines| ==> (i in picks <==> Clip(lines[i]) != "")
  }

  /** The entries are what the lines list, in order, lines that list nothing left out. */
  lemma {:induction false} ListedMeans(lines: seq<string>) returns (picks: seq<nat>)
    ensures ListedAt(ListedIn(lines), lines, picks) && PicksListing(lines, picks)
  {
    if lines == [] {
      picks := [];
    } else {
      var rest := ListedMeans(lines[1..]);
      picks := ListedMore(lines[0], lines[1..], rest);
      assert lines == [lines[0]] + lines[1..];
    }
  }

  lemma ListedMore(line: string, us: seq<string>, rest: seq<nat>) returns (picks: seq<nat>)
    requires ListedAt(ListedIn(us), us, rest) && PicksListing(us, rest)
    ensures ListedAt(ListedIn([line] + us), [line] + us, picks) && PicksListing([line] + us, picks)
  {
    hide Clip;
    var lines := [line] + us;
    assert lines[1..] == us && [] + ListedIn(us) == ListedIn(us);
    picks := ListedLater(line, ListedIn(us), us, rest);
    if Clip(line) != "" {
      ListedHere(line, ListedIn(us), lines, picks);
      picks := [0] + picks;
    }
  }

  lemma ListedLater(line: string, out: seq<string>, us: seq<string>, rest: seq<nat>) returns (later: seq<nat>)
    requires ListedAt(out, us, rest)
    ensures ListedAt(out, [line] + us, later)
    ensures forall i :: i in later <==> i > 0 && i - 1 in rest
  {
    hide Clip;
    later := OneLater(rest);
  }

  lemma ListedHere(line: string, out: seq<string>, lines: seq<string>, picks: seq<nat>)
    requires lines != [] && lines[0] == line && ListedAt(out, lines, picks) && 0 !in picks
    ensures ListedAt([Clip(line)] + out, lines, [0] + picks)
    ensures forall i :: i in [0] + picks <==> i == 0 || i in picks
  {
    hide Clip;
    assert forall k :: 0 <= k < |picks| ==> picks[k] in picks;
  }

  /** The same places, one further on. */
  lemma OneLater(rest: seq<nat>) returns (later: seq<nat>)
    ensures |later| == |rest| && forall k :: 0 <= k < |rest| ==> later[k] == rest[k] + 1
    ensures forall i :: i in later <==> i > 0 && i - 1 in rest
  {
    later := seq(|rest|, k requires 0 <= k < |rest| => rest[k] + 1);
    forall i ensures i in later <==> i > 0 && i - 1 in rest {
      if i > 0 && i - 1 in rest {
        var k :| 0 <= k < |rest| && rest[k] == i - 1;
        assert later[k] == i;
      }
    }
  }

  method ClipLine(line: string) returns (clipped: string)
    ensures clipped == Clip(line)
  {
    clipped := line;
    var hash := IndexOf(line, '#');
    if hash < |line| {
      clipped := clipped[..hash];
    } else {
      assert line[..hash] == line;
    }
    clipped := Trim(clipped);
  }

  function AllowList(text: string): Answer<seq<string>> {
    var ids := ListedIn(Lines(text));
    if ids == [] then Err(EmptyList) else Ok(ids)
  }

  method ParseAllowList(text: string) returns (r: Answer<seq<string>>)
    ensures r == AllowList(text)
  {
    var lines := Lines(text);
    var ids: seq<string> := [];
    for i := 0 to |lines|
      invariant ListedIn(lines) == ids + ListedIn(lines[i..])
    {
      assert lines[i..][1..] == lines[i + 1..];
      var line := ClipLine(lines[i]);
      if line != "" {
        ids := ids + [line];
      }
    }
    assert lines[|lines|..] == [] && ids + [] == ids;
    if |ids| == 0 {
      return Err(EmptyList);
    }
    return Ok(ids);
  }

  // ----- Selection -----

  /** The regular expression is any predicate on names. */
  datatype Selection = Selection(run: Option<string -> bool>, markers: Markers.MarkerExpr, allow: seq<string>)

  predicate Wanted(s: Selection, t: Test) {
    (s.run.Some? ==> s.run.value(t.name)) && Markers.Matches(s.markers, t.markers)
  }

  function Filtered(s: Selection, ts: seq<Test>): seq<Test> {
    if ts == [] then [] else (if Wanted(s, ts[0]) then [ts[0]] else []) + Filtered(s, ts[1..])
  }

  /** `picks` are places of `ts`, ascending, and `out` is what stands there. */
  ghost predicate Picked(out: seq<Test>, ts: seq<Test>, picks: seq<nat>) {
    && |picks| == |out|
    && (forall k :: 0 <= k < |picks| ==> picks[k] < |ts| && out[k] == ts[picks[k]])
    && (forall j, k :: 0 <= j < k < |picks| ==> picks[j] < picks[k])
  }

  /** The same places, one further on. */
  lemma PickedLater(t: Test, out: seq<Test>, ts: seq<Test>, rest: seq<nat>) returns (later: seq<nat>)
    requires Picked(out, ts, rest)
    ensures Picked(out, [t] + ts, later)
    ensures forall i :: i in later <==> i > 0 && i - 1 in rest
  {
    later := OneLater(rest);
  }

  lemma PickedFirst(out: seq<Test>, ts: seq<Test>, later: seq<nat>)
    requires ts != [] && Picked(out, ts, later) && 0 !in later
    ensures Picked([ts[0]] + out, ts, [0] + later)
    ensures forall i :: i in [0] + later <==> i == 0 || i in later
  {
    assert forall k :: 0 <= k < |later| ==> later[k] in later;
  }

  /** Filtering keeps exactly the places that are wanted, in order. */
  lemma {:induction false} FilteredMeans(s: Selection, ts: seq<Test>) returns (picks: seq<nat>)
    ensures Picked(Filtered(s, ts), ts, picks)
    ensures forall i :: 0 <= i < |ts| ==> (i in picks <==> Wanted(s, ts[i]))
  {
    if ts == [] {
      picks := [];
    } else {
      var t, us := ts[0], ts[1..];
      var rest := FilteredMeans(s, us);
      picks := PickedLater(t, Filtered(s, us), us, rest);
      assert ts == [t] + us;
      assert forall i :: 0 < i < |ts| ==> ts[i] == us[i - 1];
      if Wanted(s, t) {
        PickedFirst(Filtered(s, us), ts, picks);
        picks := [0] + picks;
      }
    }
  }

  lemma FilteredNext(s: Selection, ts: seq<Test>, i: nat)
    requires i < |ts|
    ensures Filtered(s, ts[i..]) == (if Wanted(s, ts[i]) then [ts[i]] else []) + Filtered(s, ts[i + 1..])
  {
    assert ts[i..][1..] == ts[i + 1..];
  }

  method IsWanted(s: Selection, t: Test) returns (wanted: bool)
    ensures wanted == Wanted(s, t)
  {
    if s.run.Some? && !s.run.value(t.name) {
      return false;
    }
    wanted := Markers.Match(s.markers, t.markers);
  }

  method Keep(s: Selection, candidates: seq<Test>) returns (out: seq<Test>)
    ensures out == Filtered(s, candidates)
  {
    out := [];
    for i := 0 to |candidates|
      invariant Filtered(s, candidates) == out + Filtered(s, candidates[i..])
    {
      FilteredNext(s, candidates, i);
      var wanted := IsWanted(s, candidates[i]);
      if !wanted {
        continue;
      }
      out := out + [candidates[i]];
    }
    assert candidates[|candidates|..] == [] && out + [] == out;
  }

  /** The criteria intersect: what is selected is what the allow-list names, or
      else the whole listing, filtered by the other two. */
  function Selected(m: ByName, s: Selection, listing: seq<Test>): Answer<seq<Test>> {
    var candidates := if s.allow != [] then ResolveAll(m, s.allow) else Ok(listing);
    match candidates
    case Err(e) => Err(e)
    case Ok(ts) => Ok(Filtered(s, ts))
  }

  method Select(m: ByName, order: seq<string>, s: Selection) returns (r: Answer<seq<Test>>)
    requires Valid(m) && Enumerates(order, m.Keys)
    ensures exists listing :: IsListing(m, listing) && r == Selected(m, s, listing)
  {
    var candidates := All(m, order);
    ghost var listing := candidates;
    if |s.allow| > 0 {
      var resolved := Resolve(m, s.allow);
      if resolved.Err? {
        r := Err(resolved.error);
        assert r == Selected(m, s, listing);
        return;
      }
      candidates := resolved.value;
    }
    var out := Keep(s, candidates);
    r := Ok(out);
    assert r == Selected(m, s, listing);
  }

  /** Without an allow-list: every registered test that meets the criteria, once,
      ascending by name. */
  lemma SelectedWhole(m: ByName, s: Selection, listing: seq<Test>)
    requires Valid(m) && IsListing(m, listing) && s.allow == []
    ensures var r := Selected(m, s, listing);
            && r.Ok?
            && (forall t :: t in r.value <==> t.name in m && m[t.name] == t
                                              && (s.run.Some? ==> s.run.value(t.name))
                                              && Markers.Matches(s.markers, t.markers))
            && (forall i, j :: 0 <= i < j < |r.value| ==> Less(r.value[i].name, r.value[j].name))
  {
    assert Selected(m, s, listing) == Ok(Filtered(s, listing));
    FilteredIn(s, listing);
    FilteredAscends(s, listing);
  }

  lemma {:induction false} FilteredIn(s: Selection, ts: seq<Test>)
    ensures forall t :: t in Filtered(s, ts) <==> t in ts && Wanted(s, t)
  {
    if ts != [] {
      FilteredIn(s, ts[1..]);
      assert ts == [ts[0]] + ts[1..];
    }
  }

  lemma FilteredAscends(s: Selection, ts: seq<Test>)
    requires forall i, j :: 0 <= i < j < |ts| ==> Less(ts[i].name, ts[j].name)
    ensures var out := Filtered(s, ts); forall i, j :: 0 <= i < j < |out| ==> Less(out[i].name, out[j].name)
  {
    var picks := FilteredMeans(s, ts);
  }

  // ----- Listing and allow-list undo each other -----

  /** `s3t list --node-ids`. */
  function Listing(ts: seq<Test>): string {
    if ts == [] then "" else NodeID(ts[0]) + "\n" + Listing(ts[1..])
  }

  /** A name that survives a line of an allow-list. */
  predicate Clean(name: string) {
    '#' !in name && '\n' !in name && (name == "" || !IsSpace(name[|name| - 1]))
  }

  /** What a name becomes on its line: cut at a line end, a comment, and the
      white space before either. */
  function OnItsLine(name: string): string {
    var line := DropCR(name[..IndexOf(name, '\n')]);
    TrimRight(line[..IndexOf(line, '#')])
  }

  lemma OnItsLineIsPrefix(name: string)
    ensures |OnItsLine(name)| <= |name|
    ensures OnItsLine(name) == name <==> Clean(name)
  {
    var cut := name[..IndexOf(name, '\n')];
    var line := DropCR(cut);
    var kept := line[..IndexOf(line, '#')];
    TrimRightShortens(kept);
    assert |OnItsLine(name)| <= |kept| <= |line| <= |cut| <= |name|;
    assert |cut| == |name| ==> '\n' !in name && cut == name;
    assert |kept| == |line| ==> '#' !in line && kept == line;
    if Clean(name) {
      assert cut == name && line == name && kept == name;
    }
  }

  /** Ends solidly on both sides and holds no comment or line end. */
  predicate Solid(head: string) {
    '#' !in head && '\n' !in head && head != "" && !IsSpace(head[0]) && !IsSpace(head[|head| - 1])
  }

  lemma KnownHead(file: string)
    requires KnownFile(file)
    ensures Solid(file + SEPARATOR + TEST_PREFIX)
  {
  }

  lemma IndexAfter(head: string, s: string, c: char)
    requires c !in head
    ensures IndexOf(head + s, c) == |head| + IndexOf(s, c)
  {
    var k := |head| + IndexOf(s, c);
    forall j | 0 <= j < k ensures (head + s)[j] != c {
      assert (head + s)[j] == if j < |head| then head[j] else s[j - |head|];
    }
    assert k < |head + s| ==> (head + s)[k] == s[k - |head|];
  }

  lemma ClipHead(head: string, q: string)
    requires Solid(head)
    ensures Clip(head + q) == head + TrimRight(q[..IndexOf(q, '#')])
  {
    IndexAfter(head, q, '#');
    var cut := q[..IndexOf(q, '#')];
    assert (head + q)[..IndexOf(head + q, '#')] == head + cut;
    assert TrimLeft(head + cut) == head + cut;
    TrimRightKeeps(head, cut);
  }

  lemma DropHead(head: string, q: string)
    requires Solid(head)
    ensures DropCR(head + q) == head + DropCR(q)
  {
    if q == "" {
      assert head + q == head;
    } else if q[|q| - 1] == '\r' {
      assert (head + q)[..|head + q| - 1] == head + q[..|q| - 1];
    }
  }

  /** What follows a name's first line in the text it is printed in. */
  function Remainder(name: string, rest: string): string {
    var k := IndexOf(name, '\n');
    if k < |name| then name[k + 1..] + "\n" + rest else rest
  }

  lemma FirstLine(head: string, name: string, rest: string)
    requires Solid(head)
    ensures Lines(head + name + "\n" + rest)
            == [head + DropCR(name[..IndexOf(name, '\n')])] + Lines(Remainder(name, rest))
  {
    var k := IndexOf(name, '\n');
    SplitText(head, name, rest);
    LinesFirst(head + name[..k], Remainder(name, rest));
    DropHead(head, name[..k]);
  }

  lemma SplitText(head: string, name: string, rest: string)
    ensures head + name + "\n" + rest == head + name[..IndexOf(name, '\n')] + "\n" + Remainder(name, rest)
  {
    var k := IndexOf(name, '\n');
    if k < |name| {
      SplitAt(name, k);
      Regroup(head, name[..k], name[k + 1..], rest);
    } else {
      assert name[..k] == name;
    }
  }

  lemma SplitAt(name: string, k: nat)
    requires k < |name| && name[k] == '\n'
    ensures name[..k] + "\n" + name[k + 1..] == name
  {
  }

  lemma Regroup(head: string, x: string, y: string, rest: string)
    ensures head + (x + "\n" + y) + "\n" + rest == head + x + "\n" + (y + "\n" + rest)
  {
  }

  /** A listed test's own line gives one entry, its ID with the name as it
      survives; a clean name leaves the rest of the text as it was. */
  lemma FirstEntry(head: string, name: string, rest: string) returns (more: seq<string>)
    requires Solid(head)
    ensures ListedIn(Lines(head + name + "\n" + rest)) == [head + OnItsLine(name)] + more
    ensures Clean(name) ==> more == ListedIn(Lines(rest))
  {
    var s := head + name + "\n" + rest;
    var line, after := head + DropCR(name[..IndexOf(name, '\n')]), Lines(Remainder(name, rest));
    FirstLine(head, name, rest);
    ClipHead(head, DropCR(name[..IndexOf(name, '\n')]));
    more := ListedIn(after);
    ListedFirst(line, after, head + OnItsLine(name));
  }

  lemma ListedFirst(line: string, after: seq<string>, entry: string)
    requires Clip(line) == entry != ""
    ensures ListedIn([line] + after) == [entry] + ListedIn(after)
  {
    assert ([line] + after)[1..] == after;
  }

  /** An ID with a known head resolves to the test its tail names. */
  lemma ResolveTail(m: ByName, file: string, tail: string)
    requires Valid(m) && KnownFile(file)
    ensures var r := ResolveOne(m, file + SEPARATOR + TEST_PREFIX + tail);
            && (r.Ok? ==> r.value.name == tail)
            && (tail in m && m[tail].file == file ==> r == Ok(m[tail]))
  {
    var id := file + SEPARATOR + TEST_PREFIX + tail;
    SeparatorAfter(file, SEPARATOR + TEST_PREFIX + tail);
    assert id == file + (SEPARATOR + TEST_PREFIX + tail);
    assert id[|file| + 2..] == TEST_PREFIX + tail && id[..|file|] == file;
    assert TrimPrefix(TEST_PREFIX + tail, TEST_PREFIX) == tail;
  }

  lemma {:induction false} SeparatorAfter(file: string, s: string)
    requires ':' !in file && |s| >= 2 && s[..2] == SEPARATOR
    ensures FindSeparator(file + s) == |file|
  {
    if file == "" {
      assert file + s == s && s[0] == s[..2][0] && s[1] == s[..2][1];
    } else {
      assert (file + s)[1..] == file[1..] + s && (file + s)[0] == file[0];
      SeparatorAfter(file[1..], s);
    }
  }

  /** Printing registered tests as node IDs and reading them back as an
      allow-list gives the same tests in the same order exactly when every name
      survives its line. */
  lemma {:induction false} ListingResolves(m: ByName, ts: seq<Test>)
    requires Valid(m) && Registered(m, ts)
    ensures ResolveAll(m, ListedIn(Lines(Listing(ts)))) == Ok(ts) <==> AllClean(ts)
    ensures ts != [] ==> ListedIn(Lines(Listing(ts))) != []
  {
    if ts != [] {
      var t, us := ts[0], ts[1..];
      assert ts == [t] + us;
      var more := FirstListed(m, t, us);
      ListingResolves(m, us);
      HeadResolves(m, t, more, us);
      CleanCons(t, us);
    }
  }

  lemma CleanCons(t: Test, us: seq<Test>)
    ensures AllClean([t] + us) <==> Clean(t.name) && AllClean(us)
  {
    var ts := [t] + us;
    if AllClean(ts) {
      assert Clean(ts[0].name);
      forall i | 0 <= i < |us| ensures Clean(us[i].name) {
        assert us[i] == ts[i + 1];
      }
    }
  }

  /** All names survive their lines. */
  predicate AllClean(ts: seq<Test>) {
    forall i :: 0 <= i < |ts| ==> Clean(ts[i].name)
  }

  predicate Registered(m: ByName, ts: seq<Test>) {
    forall i :: 0 <= i < |ts| ==> ts[i].name in m && m[ts[i].name] == ts[i]
  }

  lemma FirstListed(m: ByName, t: Test, us: seq<Test>) returns (more: seq<string>)
    requires Valid(m) && t.name in m && m[t.name] == t
    ensures ListedIn(Lines(Listing([t] + us))) == [t.file + SEPARATOR + TEST_PREFIX + OnItsLine(t.name)] + more
    ensures Clean(t.name) ==> more == ListedIn(Lines(Listing(us)))
  {
    var head := t.file + SEPARATOR + TEST_PREFIX;
    KnownHead(t.file);
    more := FirstEntry(head, t.name, Listing(us));
    assert ([t] + us)[1..] == us;
    assert Listing([t] + us) == head + t.name + "\n" + Listing(us);
  }

  /** The step of the induction: what the first entry resolves to. */
  lemma HeadResolves(m: ByName, t: Test, more: seq<string>, ts: seq<Test>)
    requires Valid(m) && t.name in m && m[t.name] == t
    ensures ResolveAll(m, [t.file + SEPARATOR + TEST_PREFIX + OnItsLine(t.name)] + more) == Ok([t] + ts)
            <==> Clean(t.name) && ResolveAll(m, more) == Ok(ts)
  {
    var id := t.file + SEPARATOR + TEST_PREFIX + OnItsLine(t.name);
    assert ([id] + more)[1..] == more;
    OnItsLineIsPrefix(t.name);
    ResolveTail(m, t.file, OnItsLine(t.name));
    var r := ResolveAll(m, [id] + more);
    if r.Ok? {
      assert r.value[0] == ResolveOne(m, id).value && r.value[1..] == ResolveAll(m, more).value;
      assert ([t] + ts)[0] == t && ([t] + ts)[1..] == ts;
    }
  }

  /** The whole circle: listing tests and selecting with that list and any other
      criteria gives exactly the tests that meet these, whatever they are, if and
      only if every name comes through unharmed. Listing none gives no list. */
  lemma ListAndSelect(m: ByName, ts: seq<Test>, listing: seq<Test>)
    requires Valid(m) && Registered(m, ts)
    ensures AllowList(Listing(ts)).Ok? <==> ts != []
    ensures ts != [] ==>
              var ids := AllowList(Listing(ts)).value;
              AllClean(ts) <==> forall s: Selection :: Selected(m, s.(allow := ids), listing) == Ok(Filtered(s, ts))
  {
    ListingResolves(m, ts);
    if ts != [] {
      var ids := AllowList(Listing(ts)).value;
      forall s: Selection ensures AllClean(ts) ==> Selected(m, s.(allow := ids), listing) == Ok(Filtered(s, ts)) {
        FilteredSame(s, s.(allow := ids), ts);
      }
      var all := Selection(None, Markers.Everything, []);
      if Selected(m, all.(allow := ids), listing) == Ok(Filtered(all, ts)) {
        FilteredAll(all, ts);
        FilteredAll(all.(allow := ids), ResolveAll(m, ids).value);
      }
    }
  }

  lemma {:induction false} FilteredAll(s: Selection, ts: seq<Test>)
    requires s.run == None && s.markers == Markers.Everything
    ensures Filtered(s, ts) == ts
  {
    if ts != [] {
      FilteredAll(s, ts[1..]);
    }
  }

  lemma {:induction false} FilteredSame(s: Selection, u: Selection, ts: seq<Test>)
    requires s.run == u.run && s.markers == u.markers
    ensures Filtered(s, ts) == Filtered(u, ts)
  {
    if ts != [] {
      FilteredSame(s, u, ts[1..]);
    }
  }
}
