/** The configuration file format (ini.go): sections of key = value lines, with
    DEFAULT behind every section. */
module Ini {
  import opened Tests
  import opened Text

  const DEFAULT_SECTION := "DEFAULT"

  datatype Event = Nothing | Header(name: string) | Assign(key: string, value: string) | Unterminated | NoKeyValue

  function SplitKeyValue(s: string): Event {
    var i := IndexEither(s, '=', ':');
    if i == |s| then NoKeyValue
    else
      var key := ToLower(Trim(s[..i]));
      if key == "" then NoKeyValue else Assign(key, Trim(s[i + 1..]))
  }

  /** What one line says. */
  function Read(line: string): Event {
    var text := Trim(line);
    if text == "" || text[0] == '#' || text[0] == ';' then Nothing
    else if text[0] == '[' then
      if text[|text| - 1] != ']' then Unterminated else Header(Trim(text[1..|text| - 1]))
    else SplitKeyValue(text)
  }

  predicate IsBad(e: Event) {
    e.Unterminated? || e.NoKeyValue?
  }

  function ReadAll(lines: seq<string>): (es: seq<Event>)
    ensures |es| == |lines| && forall i :: 0 <= i < |lines| ==> es[i] == Read(lines[i])
  {
    seq(|lines|, i requires 0 <= i < |lines| => Read(lines[i]))
  }

  // ----- What a file says, by scanning it -----

  /** The section in force after the events, starting from `from`. */
  function SectionAfter(es: seq<Event>, from: string): string {
    if es == [] then from
    else
      var e := es[|es| - 1];
      if e.Header? then e.name else SectionAfter(es[..|es| - 1], from)
  }

  /** The value of the last assignment to the key under the section. */
  function LastIn(es: seq<Event>, from: string, section: string, key: string): Option<string> {
    if es == [] then None
    else
      var n := |es| - 1;
      var e := es[n];
      if e.Assign? && e.key == key && SectionAfter(es[..n], from) == section then Some(e.value)
      else LastIn(es[..n], from, section, key)
  }

  /** `LastIn` in terms of places: the one assignment with none after it. */
  lemma {:induction false} LastInMeans(es: seq<Event>, from: string, section: string, key: string, i: nat)
    requires i < |es| && AssignsAt(es, from, section, key, i)
    requires forall j :: i < j < |es| ==> !AssignsAt(es, from, section, key, j)
    ensures LastIn(es, from, section, key) == Some(es[i].value)
  {
    var n := |es| - 1;
    if i < n {
      assert !AssignsAt(es, from, section, key, n);
      assert es[..n][..i] == es[..i];
      forall j | i < j < n ensures !AssignsAt(es[..n], from, section, key, j) {
        assert es[..n][..j] == es[..j];
        assert !AssignsAt(es, from, section, key, j);
      }
      LastInMeans(es[..n], from, section, key, i);
    }
  }

  lemma {:induction false} LastInNone(es: seq<Event>, from: string, section: string, key: string)
    requires forall j :: 0 <= j < |es| ==> !AssignsAt(es, from, section, key, j)
    ensures LastIn(es, from, section, key) == None
  {
    if es != [] {
      var n := |es| - 1;
      assert !AssignsAt(es, from, section, key, n);
      forall j | 0 <= j < n ensures !AssignsAt(es[..n], from, section, key, j) {
        assert es[..n][..j] == es[..j];
        assert !AssignsAt(es, from, section, key, j);
      }
      LastInNone(es[..n], from, section, key);
    }
  }

  predicate AssignsAt(es: seq<Event>, from: string, section: string, key: string, i: nat)
    requires i < |es|
  {
    es[i].Assign? && es[i].key == key && SectionAfter(es[..i], from) == section
  }

  /** What `get` has to answer. */
  function Said(es: seq<Event>, section: string, key: string): Option<string> {
    var own := LastIn(es, DEFAULT_SECTION, section, key);
    if own.Some? then own else LastIn(es, DEFAULT_SECTION, DEFAULT_SECTION, key)
  }

  // ----- The parsed file -----

  type Sections = map<string, map<string, string>>

  function Value(m: Sections, section: string, key: string): Option<string> {
    if section in m && key in m[section] then Some(m[section][key]) else None
  }

  function Get(m: Sections, section: string, key: string): Option<string> {
    var own := Value(m, section, key);
    if own.Some? then own else Value(m, DEFAULT_SECTION, key)
  }

  datatype Result = Ok(sections: Sections) | Err(line: nat, event: Event)

  /** Whether some header names the section. */
  predicate Named(es: seq<Event>, section: string) {
    es != [] && (es[|es| - 1] == Header(section) || Named(es[..|es| - 1], section))
  }

  /** The map holds, for every section and key, what the events say last. */
  ghost predicate Mirrors(m: Sections, es: seq<Event>) {
    && (forall s, k :: Value(m, s, k) == LastIn(es, DEFAULT_SECTION, s, k))
    && (forall s :: s in m <==> s == DEFAULT_SECTION || Named(es, s))
  }

  lemma MirrorsOther(m: Sections, es: seq<Event>, e: Event)
    requires Mirrors(m, es) && !e.Assign?
    ensures Mirrors(if e.Header? && e.name !in m then m[e.name := map[]] else m, es + [e])
    ensures SectionAfter(es + [e], DEFAULT_SECTION) == if e.Header? then e.name else SectionAfter(es, DEFAULT_SECTION)
  {
    assert (es + [e])[..|es|] == es;
    var m1 := if e.Header? && e.name !in m then m[e.name := map[]] else m;
    forall s, k ensures Value(m1, s, k) == LastIn(es + [e], DEFAULT_SECTION, s, k) {
      assert Value(m, s, k) == LastIn(es, DEFAULT_SECTION, s, k);
    }
    forall s ensures s in m1 <==> s == DEFAULT_SECTION || Named(es + [e], s) {
      assert s in m <==> s == DEFAULT_SECTION || Named(es, s);
    }
  }

  lemma MirrorsAssign(m: Sections, es: seq<Event>, key: string, value: string)
    requires Mirrors(m, es) && SectionAfter(es, DEFAULT_SECTION) in m
    ensures var section := SectionAfter(es, DEFAULT_SECTION);
            && Mirrors(m[section := m[section][key := value]], es + [Assign(key, value)])
            && SectionAfter(es + [Assign(key, value)], DEFAULT_SECTION) == section
  {
    var e := Assign(key, value);
    assert (es + [e])[..|es|] == es;
    var section := SectionAfter(es, DEFAULT_SECTION);
    var m1 := m[section := m[section][key := value]];
    forall s, k ensures Value(m1, s, k) == LastIn(es + [e], DEFAULT_SECTION, s, k) {
      assert Value(m, s, k) == LastIn(es, DEFAULT_SECTION, s, k);
    }
    forall s ensures s in m1 <==> s == DEFAULT_SECTION || Named(es + [e], s) {
      assert s in m <==> s == DEFAULT_SECTION || Named(es, s);
    }
  }

  /** Where parsing stands after the events. */
  ghost predicate Tracks(section: string, m: Sections, es: seq<Event>) {
    section == SectionAfter(es, DEFAULT_SECTION) && section in m && Mirrors(m, es)
  }

  lemma TracksStep(section: string, m: Sections, es: seq<Event>, e: Event)
    requires Tracks(section, m, es)
    ensures !e.Assign? && !e.Header? ==> Tracks(section, m, es + [e])
    ensures e.Header? ==> Tracks(e.name, if e.name in m then m else m[e.name := map[]], es + [e])
    ensures e.Assign? ==> Tracks(section, m[section := m[section][e.key := e.value]], es + [e])
  {
    if e.Assign? {
      MirrorsAssign(m, es, e.key, e.value);
    } else {
      MirrorsOther(m, es, e);
    }
  }

  /** Parsing fails exactly on a bad line, naming the first one; otherwise the
      map answers exactly what scanning the lines answers. */
  ghost predicate Outcome(r: Result, es: seq<Event>) {
    match r
    case Ok(m) => (forall i :: 0 <= i < |es| ==> !IsBad(es[i])) && Mirrors(m, es)
    case Err(line, event) =>
      && 1 <= line <= |es| && event == es[line - 1] && IsBad(event)
      && forall i :: 0 <= i < line - 1 ==> !IsBad(es[i])
  }

  /** What the loop does with one good line. */
  method TakeLine(e: Event, section: string, sections: Sections, ghost es: seq<Event>)
    returns (section': string, sections': Sections)
    requires Tracks(section, sections, es) && !IsBad(e)
    ensures Tracks(section', sections', es + [e])
  {
    TracksStep(section, sections, es, e);
    section', sections' := section, sections;
    if e.Header? {
      section' := e.name;
      if section' !in sections {
        sections' := sections[section' := map[]];
      }
    } else if e.Assign? {
      sections' := sections[section := sections[section][e.key := e.value]];
    }
  }

  method ParseLines(lines: seq<string>, ghost es: seq<Event>) returns (r: Result)
    requires |es| == |lines| && forall i :: 0 <= i < |lines| ==> es[i] == Read(lines[i])
    ensures Outcome(r, es)
  {
    hide Read;
    var section := DEFAULT_SECTION;
    var sections: Sections := map[section := map[]];
    var n := 0;
    ghost var seen: seq<Event> := [];
    while n < |lines|
      invariant 0 <= n <= |lines| && seen == es[..n]
      invariant forall i :: 0 <= i < n ==> !IsBad(es[i])
      invariant Tracks(section, sections, seen)
    {
      var e := Read(lines[n]);
      if IsBad(e) {
        return Err(n + 1, e);
      }
      section, sections := TakeLine(e, section, sections, seen);
      seen := seen + [e];
      n := n + 1;
    }
    assert seen == es;
    return Ok(sections);
  }

  method ParseINI(text: string) returns (r: Result)
    ensures Outcome(r, ReadAll(Lines(text)))
  {
    r := ParseLines(Lines(text), ReadAll(Lines(text)));
  }

  /** So a lookup is the last assignment in the section, or else in DEFAULT. */
  lemma GetMeans(m: Sections, es: seq<Event>, section: string, key: string)
    requires Mirrors(m, es)
    ensures Get(m, section, key) == Said(es, section, key)
  {
    assert Value(m, section, key) == LastIn(es, DEFAULT_SECTION, section, key);
    assert Value(m, DEFAULT_SECTION, key) == LastIn(es, DEFAULT_SECTION, DEFAULT_SECTION, key);
  }

  // ----- Rendering -----

  datatype Section = Section(name: string, pairs: seq<(string, string)>)

  predicate GoodKey(key: string) {
    && key != "" && Trimmed(key) && ToLower(key) == key
    && (forall i :: 0 <= i < |key| ==> key[i] != '=' && key[i] != ':' && key[i] != '\n')
    && key[0] != '#' && key[0] != ';' && key[0] != '['
  }

  predicate GoodText(s: string) {
    Trimmed(s) && '\n' !in s
  }

  predicate WellFormed(doc: seq<Section>) {
    forall i :: 0 <= i < |doc| ==>
      && GoodText(doc[i].name)
      && forall j :: 0 <= j < |doc[i].pairs| ==> GoodKey(doc[i].pairs[j].0) && GoodText(doc[i].pairs[j].1)
  }

  function PairLine(p: (string, string)): string {
    p.0 + " = " + p.1
  }

  function SectionLines(s: Section): seq<string> {
    ["[" + s.name + "]"] + seq(|s.pairs|, i requires 0 <= i < |s.pairs| => PairLine(s.pairs[i]))
  }

  function Render(doc: seq<Section>): seq<string> {
    if doc == [] then [] else Render(doc[..|doc| - 1]) + SectionLines(doc[|doc| - 1])
  }

  /** The last value the document itself gives the key under the name. */
  function DocLast(doc: seq<Section>, section: string, key: string): Option<string> {
    if doc == [] then None
    else
      var s := doc[|doc| - 1];
      var own := PairsLast(s.pairs, key);
      if s.name == section && own.Some? then own else DocLast(doc[..|doc| - 1], section, key)
  }

  /** What the document says of the key in the section, DEFAULT behind it. */
  function DocGet(doc: seq<Section>, section: string, key: string): Option<string> {
    var own := DocLast(doc, section, key);
    if own.Some? then own else DocLast(doc, DEFAULT_SECTION, key)
  }

  function PairsLast(ps: seq<(string, string)>, key: string): Option<string> {
    if ps == [] then None
    else
      var n := |ps| - 1;
      if ps[n].0 == key then Some(ps[n].1) else PairsLast(ps[..n], key)
  }

  lemma ReadHeader(name: string)
    requires GoodText(name)
    ensures Read("[" + name + "]") == Header(name)
  {
    var line := "[" + name + "]";
    TrimTrimmed(line);
    assert line[1..|line| - 1] == name;
    TrimTrimmed(name);
  }

  /** What is left of a pair's line once it is trimmed. */
  lemma PairTrimmed(key: string, value: string)
    requires GoodKey(key) && GoodText(value)
    ensures Trim(PairLine((key, value))) == key + " =" + (if value == "" then "" else " " + value)
  {
    var solid := key + " =";
    var rest := " " + value;
    assert PairLine((key, value)) == solid + rest;
    TrimRightKeeps(solid, rest);
    TrimRightShortens(rest);
    if value == "" {
      assert rest[..0] == "";
    }
  }

  lemma KeyFound(key: string, tail: string)
    requires GoodKey(key)
    ensures IndexEither(key + " =" + tail, '=', ':') == |key| + 1
  {
    var text := key + " =" + tail;
    assert text[|key| + 1] == '=';
    forall j | 0 <= j < |key| + 1 ensures text[j] != '=' && text[j] != ':' {
      assert text[j] == if j < |key| then key[j] else ' ';
    }
  }

  lemma ReadPair(p: (string, string))
    requires GoodKey(p.0) && GoodText(p.1)
    ensures Read(PairLine(p)) == Assign(p.0, p.1)
  {
    var (key, value) := p;
    var tail := if value == "" then "" else " " + value;
    var text := key + " =" + tail;
    PairTrimmed(key, value);
    KeyFound(key, tail);
    assert text[..|key| + 1] == key + " " && text[|key| + 2..] == tail;
    TrimAfter(key);
    TrimBefore(value);
  }

  // ----- Reading back what was rendered -----

  function PairEvents(ps: seq<(string, string)>): (es: seq<Event>)
    ensures |es| == |ps| && forall i :: 0 <= i < |ps| ==> es[i] == Assign(ps[i].0, ps[i].1)
  {
    seq(|ps|, i requires 0 <= i < |ps| => Assign(ps[i].0, ps[i].1))
  }

  function DocEvents(doc: seq<Section>): seq<Event> {
    if doc == [] then []
    else
      var s := doc[|doc| - 1];
      DocEvents(doc[..|doc| - 1]) + ([Header(s.name)] + PairEvents(s.pairs))
  }

  /** The assignments of one block, read after its header. */
  lemma {:induction false} BlockMeans(before: seq<Event>, from: string, name: string, ps: seq<(string, string)>,
                                      section: string, key: string)
    ensures var es := before + ([Header(name)] + PairEvents(ps));
            && SectionAfter(es, from) == name
            && LastIn(es, from, section, key)
               == if section == name && PairsLast(ps, key).Some? then PairsLast(ps, key)
                  else LastIn(before, from, section, key)
  {
    var es := before + ([Header(name)] + PairEvents(ps));
    var n := |es| - 1;
    if ps == [] {
      assert es[..n] == before;
    } else {
      var m := |ps| - 1;
      BlockMeans(before, from, name, ps[..m], section, key);
      assert es[..n] == before + ([Header(name)] + PairEvents(ps[..m]));
      assert es[n] == Assign(ps[m].0, ps[m].1);
    }
  }

  lemma {:induction false} DocMeans(doc: seq<Section>, section: string, key: string)
    ensures LastIn(DocEvents(doc), DEFAULT_SECTION, section, key) == DocLast(doc, section, key)
  {
    if doc != [] {
      var s := doc[|doc| - 1];
      DocMeans(doc[..|doc| - 1], section, key);
      BlockMeans(DocEvents(doc[..|doc| - 1]), DEFAULT_SECTION, s.name, s.pairs, section, key);
    }
  }

  lemma {:induction false} RenderReads(doc: seq<Section>)
    requires WellFormed(doc)
    ensures ReadAll(Render(doc)) == DocEvents(doc)
    ensures forall i :: 0 <= i < |Render(doc)| ==> OneLine(Render(doc)[i])
    ensures forall i :: 0 <= i < |DocEvents(doc)| ==> !IsBad(DocEvents(doc)[i])
  {
    if doc != [] {
      var n := |doc| - 1;
      RenderReads(doc[..n]);
      BlockReads(doc[n]);
      assert Render(doc) == Render(doc[..n]) + SectionLines(doc[n]);
    }
  }

  lemma HeaderLine(name: string)
    requires GoodText(name)
    ensures OneLine("[" + name + "]")
  {
  }

  lemma PairOnLine(p: (string, string))
    requires GoodKey(p.0) && GoodText(p.1)
    ensures OneLine(PairLine(p))
  {
    var line := PairLine(p);
    assert line[|line| - 1] == if p.1 == "" then ' ' else p.1[|p.1| - 1];
  }

  predicate OneLine(line: string) {
    '\n' !in line && DropCR(line) == line
  }

  lemma PairReads(p: (string, string))
    requires GoodKey(p.0) && GoodText(p.1)
    ensures Read(PairLine(p)) == Assign(p.0, p.1) && OneLine(PairLine(p))
  {
    ReadPair(p);
    PairOnLine(p);
  }

  lemma BlockReads(s: Section)
    requires GoodText(s.name) && forall j :: 0 <= j < |s.pairs| ==> GoodKey(s.pairs[j].0) && GoodText(s.pairs[j].1)
    ensures ReadAll(SectionLines(s)) == [Header(s.name)] + PairEvents(s.pairs)
    ensures forall i :: 0 <= i < |SectionLines(s)| ==> OneLine(SectionLines(s)[i])
  {
    ReadHeader(s.name);
    HeaderLine(s.name);
    var lines, es := SectionLines(s), [Header(s.name)] + PairEvents(s.pairs);
    forall i | 0 <= i < |lines| ensures Read(lines[i]) == es[i] && OneLine(lines[i]) {
      if i > 0 {
        PairReads(s.pairs[i - 1]);
      }
    }
  }

  /** Writing a document out and parsing the text keeps every lookup: the last
      value the document gives the key in the section, or else in DEFAULT. */
  lemma RoundTrip(doc: seq<Section>, r: Result)
    requires WellFormed(doc) && Outcome(r, ReadAll(Lines(Unlines(Render(doc)))))
    ensures r.Ok?
    ensures forall section, key :: Get(r.sections, section, key) == DocGet(doc, section, key)
  {
    hide Read;
    RenderReads(doc);
    LinesUnlines(Render(doc));
    forall section, key ensures Get(r.sections, section, key) == DocGet(doc, section, key) {
      GetMeans(r.sections, DocEvents(doc), section, key);
      DocMeans(doc, section, key);
      DocMeans(doc, DEFAULT_SECTION, key);
    }
  }

  // ----- Any spelling -----

  /** Blank, or a comment: nothing, or a sign, after white space. */
  ghost predicate Remark(line: string) {
    exists k :: 0 <= k <= |line| && Spaces(line[..k]) && (k == |line| || line[k] in ['#', ';'])
  }

  /** A section's name in brackets, white space anywhere around. */
  ghost predicate IsHeader(line: string, name: string) {
    Trimmed(name) && exists p, q, r, t :: HeaderParts(line, p, q, name, r, t)
  }

  ghost predicate HeaderParts(line: string, p: string, q: string, name: string, r: string, t: string) {
    Spaces(p) && Spaces(q) && Spaces(r) && Spaces(t) && line == p + ("[" + (q + name + r) + "]") + t
  }

  /** A key, in whatever case, and its value, with either sign between them and
      white space anywhere around; the first sign in the line is the one meant. */
  ghost predicate IsPair(line: string, key: string, value: string) {
    exists p, k, q, sign, r, t :: PairParts(line, p, k, q, sign, r, value, t) && ToLower(k) == key
  }

  ghost predicate PairParts(line: string, p: string, k: string, q: string, sign: char, r: string, value: string,
                            t: string)
  {
    && Spaces(p) && Spaces(q) && Spaces(r) && Spaces(t) && Trimmed(k) && Trimmed(value)
    && sign in ['=', ':'] && '=' !in k && ':' !in k && k != "" && k[0] !in ['#', ';', '[']
    && line == p + (k + q + [sign] + r + value) + t
  }

  lemma ReadRemark(line: string)
    ensures Read(line) == Nothing <==> Remark(line)
  {
    var p, q := TrimSplits(line);
    var text := Trim(line);
    if text == "" {
      assert line[..|line|] == line && Spaces(line);
    } else {
      assert line[|p|] == text[0] && line[..|p|] == p;
      if Remark(line) {
        var k :| 0 <= k <= |line| && Spaces(line[..k]) && (k == |line| || line[k] in ['#', ';']);
        FirstSolid(line, p, k);
      }
    }
  }

  /** The first character that is not white space has one place. */
  lemma FirstSolid(line: string, p: string, k: nat)
    requires Spaces(p) && p <= line && |p| < |line| && !IsSpace(line[|p|])
    requires k <= |line| && Spaces(line[..k]) && (k == |line| || line[k] in ['#', ';'])
    ensures k == |p|
  {
  }

  lemma HeaderReads(line: string, p: string, q: string, name: string, r: string, t: string)
    requires HeaderParts(line, p, q, name, r, t) && Trimmed(name)
    ensures Read(line) == Header(name)
  {
    var text := "[" + (q + name + r) + "]";
    assert text[0] == '[' && text[|text| - 1] == ']' && text[1..|text| - 1] == q + name + r;
    TrimPadded(p, text, t);
    TrimPadded(q, name, r);
  }

  lemma ReadsHeader(line: string, name: string)
    requires Read(line) == Header(name)
    ensures IsHeader(line, name)
  {
    var p, t := TrimSplits(line);
    var text := Trim(line);
    var q, r := TrimSplits(text[1..|text| - 1]);
    assert text == "[" + text[1..|text| - 1] + "]";
    assert HeaderParts(line, p, q, name, r, t);
  }

  lemma SignFirst(k: string, q: string, sign: char, rest: string)
    requires '=' !in k && ':' !in k && Spaces(q) && sign in ['=', ':']
    ensures IndexEither(k + q + [sign] + rest, '=', ':') == |k + q|
  {
    var s := k + q + [sign] + rest;
    assert s[|k + q|] == sign;
    forall j | 0 <= j < |k + q| ensures s[j] !in ['=', ':'] {
      assert s[j] == if j < |k| then k[j] else q[j - |k|];
    }
  }

  lemma SplitText(k: string, q: string, sign: char, r: string, value: string)
    requires Spaces(q) && Spaces(r) && Trimmed(k) && Trimmed(value) && k != ""
    requires sign in ['=', ':'] && '=' !in k && ':' !in k
    ensures ToLower(k) != "" && SplitKeyValue(k + q + [sign] + (r + value)) == Assign(ToLower(k), value)
  {
    var text, i := k + q + [sign] + (r + value), |k + q|;
    SignFirst(k, q, sign, r + value);
    assert text[..i] == "" + k + q && text[i + 1..] == r + value + "";
    TrimPadded("", k, q);
    TrimPadded(r, value, "");
  }

  /** What is left of a pair's line once it is trimmed. */
  lemma PairText(line: string, p: string, k: string, q: string, sign: char, r: string, value: string, t: string)
    requires PairParts(line, p, k, q, sign, r, value, t)
    ensures Trim(line) == k + q + [sign] + (if value == "" then "" else r + value)
  {
    var text := k + q + [sign] + (if value == "" then "" else r + value);
    if value == "" {
      assert line == p + text + (r + t);
      TrimPadded(p, text, r + t);
    } else {
      assert line == p + text + t;
      assert text[|text| - 1] == value[|value| - 1];
      TrimPadded(p, text, t);
    }
  }

  lemma PairIsRead(line: string, p: string, k: string, q: string, sign: char, r: string, value: string, t: string)
    requires PairParts(line, p, k, q, sign, r, value, t)
    ensures Read(line) == Assign(ToLower(k), value)
  {
    PairText(line, p, k, q, sign, r, value, t);
    if value == "" {
      SplitText(k, q, sign, "", "");
      assert k + q + [sign] + ("" + "") == Trim(line);
    } else {
      SplitText(k, q, sign, r, value);
    }
    assert Trim(line)[0] == k[0];
  }

  lemma ReadsPair(line: string, key: string, value: string)
    requires Read(line) == Assign(key, value)
    ensures IsPair(line, key, value)
  {
    var p, t := TrimSplits(line);
    var k, q, sign, r, t1 := SplitParts(Trim(line), key, value);
    PadParts(line, p, Trim(line), t, k, q, sign, r, value, t1);
    assert PairParts(line, p, k, q, sign, r, value, t1 + t) && ToLower(k) == key;
  }

  /** The parts of a trimmed line that was split. */
  lemma SplitParts(text: string, key: string, value: string)
    returns (k: string, q: string, sign: char, r: string, t: string)
    requires text != "" && !IsSpace(text[0]) && SplitKeyValue(text) == Assign(key, value)
    ensures Spaces(q) && Spaces(r) && Spaces(t) && Trimmed(k) && Trimmed(value)
    ensures sign in ['=', ':'] && '=' !in k && ':' !in k && k != "" && k[0] == text[0] && ToLower(k) == key
    ensures text == (k + q) + [sign] + (r + value + t)
  {
    hide Trim;
    var i := IndexEither(text, '=', ':');
    var left, right := text[..i], text[i + 1..];
    assert '=' !in left && ':' !in left && text == left + [text[i]] + right;
    var p;
    p, q := TrimSplits(left);
    r, t := TrimSplits(right);
    k, sign := Trim(left), text[i];
    LeftSolid(text, i, p, k, q);
    NoSign(left, k, q);
  }

  lemma NoSign(left: string, k: string, q: string)
    requires left == k + q && '=' !in left && ':' !in left
    ensures '=' !in k && ':' !in k
  {
  }

  lemma PadParts(line: string, p: string, text: string, t: string, k: string, q: string, sign: char, r: string,
                 value: string, t1: string)
    requires line == p + text + t && text == (k + q) + [sign] + (r + value + t1)
    ensures line == p + (k + q + [sign] + r + value) + (t1 + t)
  {
  }

  /** A trimmed text begins with its key. */
  lemma LeftSolid(text: string, i: nat, p: string, k: string, q: string)
    requires i < |text| && !IsSpace(text[0]) && text[..i] == p + k + q && Spaces(p) && k != ""
    ensures p == "" && text[..i] == k + q && k[0] == text[0]
  {
  }

  /** What a line says, in terms of its characters. What is none of this is an
      error: a header that is not closed, or no key and value. */
  lemma ReadMeans(line: string)
    ensures Read(line) == Nothing <==> Remark(line)
    ensures forall name :: Read(line) == Header(name) <==> IsHeader(line, name)
    ensures forall key, value :: Read(line) == Assign(key, value) <==> IsPair(line, key, value)
    ensures Read(line) == Unterminated <==>
              (exists p, rest :: Opened(line, p, rest)) && forall name :: !IsHeader(line, name)
  {
    ReadRemark(line);
    forall name ensures Read(line) == Header(name) <==> IsHeader(line, name) {
      if IsHeader(line, name) {
        var p, q, r, t :| HeaderParts(line, p, q, name, r, t);
        HeaderReads(line, p, q, name, r, t);
      }
      if Read(line) == Header(name) {
        ReadsHeader(line, name);
      }
    }
    forall key, value ensures Read(line) == Assign(key, value) <==> IsPair(line, key, value) {
      if IsPair(line, key, value) {
        var p, k, q, sign, r, t :| PairParts(line, p, k, q, sign, r, value, t) && ToLower(k) == key;
        PairIsRead(line, p, k, q, sign, r, value, t);
      }
      if Read(line) == Assign(key, value) {
        ReadsPair(line, key, value);
      }
    }
    ReadsOpened(line);
    if Read(line) == Unterminated {
      forall name ensures !IsHeader(line, name) {
        assert Read(line) != Header(name);
      }
    }
    if exists p, rest :: Opened(line, p, rest) {
      assert Read(line).Header? ==> IsHeader(line, Read(line).name);
    }
  }

  lemma ReadsOpened(line: string)
    ensures Read(line).Unterminated? || Read(line).Header? <==> exists p, rest :: Opened(line, p, rest)
  {
    var p, t := TrimSplits(line);
    var text := Trim(line);
    if text != "" && text[0] == '[' {
      assert Opened(line, p, text[1..] + t);
    }
    if p1, rest :| Opened(line, p1, rest) {
      assert line[|p1|] == '[';
      FirstOf(line, p, text, t, |p1|);
    }
  }

  /** The first character that is not white space begins what trimming leaves. */
  lemma FirstOf(line: string, p: string, text: string, t: string, k: nat)
    requires line == p + text + t && Spaces(p) && Spaces(t) && Trimmed(text)
    requires k < |line| && !IsSpace(line[k]) && Spaces(line[..k])
    ensures text != "" && text[0] == line[k]
  {
    assert text == "" ==> line == p + t;
    assert text != "" ==> line[|p|] == text[0];
  }

  ghost predicate Opened(line: string, p: string, rest: string) {
    Spaces(p) && line == p + "[" + rest
  }

  /** The events that say something. */
  function Telling(es: seq<Event>): seq<Event> {
    if es == [] then []
    else
      var n := |es| - 1;
      Telling(es[..n]) + if es[n] == Nothing then [] else [es[n]]
  }

  ghost function WithoutRemarks(lines: seq<string>): seq<string> {
    if lines == [] then []
    else
      var n := |lines| - 1;
      WithoutRemarks(lines[..n]) + if Remark(lines[n]) then [] else [lines[n]]
  }

  lemma {:induction false} RemarksSayNothing(lines: seq<string>)
    ensures ReadAll(WithoutRemarks(lines)) == Telling(ReadAll(lines))
  {
    if lines != [] {
      var n := |lines| - 1;
      RemarksSayNothing(lines[..n]);
      ReadRemark(lines[n]);
      assert ReadAll(lines)[..n] == ReadAll(lines[..n]);
      assert ReadAll(WithoutRemarks(lines[..n]) + []) == Telling(ReadAll(lines[..n]));
    }
  }

  predicate NoneBad(es: seq<Event>) {
    forall i :: 0 <= i < |es| ==> !IsBad(es[i])
  }

  /** What says nothing changes nothing. */
  lemma {:induction false} TellingSame(es: seq<Event>, section: string, key: string)
    ensures NoneBad(es) <==> NoneBad(Telling(es))
    ensures SectionAfter(Telling(es), DEFAULT_SECTION) == SectionAfter(es, DEFAULT_SECTION)
    ensures LastIn(Telling(es), DEFAULT_SECTION, section, key) == LastIn(es, DEFAULT_SECTION, section, key)
  {
    if es != [] {
      var n := |es| - 1;
      var e, before := es[n], Telling(es[..n]);
      TellingSame(es[..n], section, key);
      BadSnoc(es[..n], e);
      assert es == es[..n] + [e];
      if e == Nothing {
        assert Telling(es) == before;
      } else {
        assert (before + [e])[..|before|] == before;
        BadSnoc(before, e);
      }
    }
  }

  lemma BadSnoc(es: seq<Event>, e: Event)
    ensures NoneBad(es + [e]) <==> NoneBad(es) && !IsBad(e)
  {
    assert (es + [e])[|es|] == e && forall i :: 0 <= i < |es| ==> (es + [e])[i] == es[i];
  }

  /** Blank lines and comments may stand anywhere: two files that are the same
      without them both parse or both fail, and answer every lookup alike. */
  lemma RemarksIgnored(text: string, other: string, r: Result, q: Result)
    requires WithoutRemarks(Lines(text)) == WithoutRemarks(Lines(other))
    requires Outcome(r, ReadAll(Lines(text))) && Outcome(q, ReadAll(Lines(other)))
    ensures r.Ok? <==> q.Ok?
    ensures r.Ok? ==> forall section, key :: Get(r.sections, section, key) == Get(q.sections, section, key)
  {
    var es, fs := ReadAll(Lines(text)), ReadAll(Lines(other));
    RemarksSayNothing(Lines(text));
    RemarksSayNothing(Lines(other));
    TellingSame(es, "", "");
    TellingSame(fs, "", "");
    assert r.Ok? <==> NoneBad(es);
    assert q.Ok? <==> NoneBad(fs);
    if r.Ok? {
      forall section, key ensures Get(r.sections, section, key) == Get(q.sections, section, key) {
        GetTelling(r.sections, es, section, key);
        GetTelling(q.sections, fs, section, key);
      }
    }
  }

  lemma GetTelling(m: Sections, es: seq<Event>, section: string, key: string)
    requires Mirrors(m, es)
    ensures Get(m, section, key) == Said(Telling(es), section, key)
  {
    GetMeans(m, es, section, key);
    TellingSame(es, section, key);
    TellingSame(es, DEFAULT_SECTION, key);
  }

  /** A line that writes the event, one way or another. */
  ghost predicate Writes(line: string, e: Event) {
    match e
    case Header(name) => IsHeader(line, name)
    case Assign(key, value) => IsPair(line, key, value)
    case _ => false
  }

  /** However a document is written down, with either sign, keys in any case, white
      space around everything, and blank lines and comments in between: parsing the
      text succeeds and keeps every lookup. */
  lemma AnySpelling(doc: seq<Section>, text: string, r: Result)
    requires var lines := WithoutRemarks(Lines(text));
             |lines| == |DocEvents(doc)| && forall i :: 0 <= i < |lines| ==> Writes(lines[i], DocEvents(doc)[i])
    requires Outcome(r, ReadAll(Lines(text)))
    ensures r.Ok?
    ensures forall section, key :: Get(r.sections, section, key) == DocGet(doc, section, key)
  {
    hide Read, IsPair, IsHeader;
    var lines, es := WithoutRemarks(Lines(text)), ReadAll(Lines(text));
    forall i | 0 <= i < |lines| ensures Read(lines[i]) == DocEvents(doc)[i] {
      ReadMeans(lines[i]);
    }
    RemarksSayNothing(Lines(text));
    assert Telling(es) == DocEvents(doc);
    TellingSame(es, "", "");
    forall i | 0 <= i < |lines| ensures !IsBad(Telling(es)[i]) {
      assert Writes(lines[i], DocEvents(doc)[i]);
    }
    assert NoneBad(es);
    forall section, key ensures Get(r.sections, section, key) == DocGet(doc, section, key) {
      GetTelling(r.sections, es, section, key);
      DocMeans(doc, section, key);
      DocMeans(doc, DEFAULT_SECTION, key);
    }
  }
}
