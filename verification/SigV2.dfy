/** The string a version 2 signature is computed over (sigv2.go). */
module SigV2 {
  import opened Text
  import opened Sorting

  /** Header values by key, as net/http stores them. */
  type Header = map<string, seq<string>>

  // ----- Header keys -----

  predicate IsTokenChar(c: char) {
    || 'a' <= c <= 'z' || 'A' <= c <= 'Z' || '0' <= c <= '9'
    || c in {'!', '#', '$', '%', '&', '\'', '*', '+', '-', '.', '^', '_', '`', '|', '~'}
  }

  predicate IsToken(s: string) {
    forall i :: 0 <= i < |s| ==> IsTokenChar(s[i])
  }

  /** Capitals at the start and after each dash, small letters elsewhere. */
  function Cased(s: string): (t: string)
    ensures |t| == |s|
    ensures forall i :: 0 <= i < |s| ==>
      t[i] == if i == 0 || s[i - 1] == '-' then UpperChar(s[i]) else LowerChar(s[i])
  {
    seq(|s|, i requires 0 <= i < |s| =>
      if i == 0 || s[i - 1] == '-' then UpperChar(s[i]) else LowerChar(s[i]))
  }

  /** The key a header is looked up under, whatever case it is asked for in. */
  function CanonicalKey(s: string): string {
    if IsToken(s) then Cased(s) else s
  }

  predicate Proper(k: string) {
    IsToken(k) && CanonicalKey(k) == k
  }

  ghost predicate ProperKeys(h: Header) {
    forall k :: k in h ==> Proper(k)
  }

  lemma LowerCharTurns(c: char)
    ensures IsTokenChar(c) ==> IsTokenChar(LowerChar(c))
    ensures UpperChar(LowerChar(c)) == UpperChar(c) && LowerChar(LowerChar(c)) == LowerChar(c)
    ensures LowerChar(c) == '-' <==> c == '-'
    ensures LowerChar(UpperChar(c)) == LowerChar(c)
  {
  }

  lemma CasedLower(s: string)
    ensures Cased(ToLower(s)) == Cased(s)
  {
    forall i | 0 <= i < |s| ensures Cased(ToLower(s))[i] == Cased(s)[i] {
      LowerCharTurns(s[i]);
      if i > 0 {
        LowerCharTurns(s[i - 1]);
      }
    }
  }

  /** A proper key is found again under its lower-case form. */
  lemma LowerFinds(k: string)
    requires Proper(k)
    ensures CanonicalKey(ToLower(k)) == k
  {
    forall i | 0 <= i < |k| ensures IsTokenChar(ToLower(k)[i]) {
      LowerCharTurns(k[i]);
    }
    CasedLower(k);
  }

  // ----- The x-amz-* headers -----

  const AMZ_PREFIX := "x-amz-"

  predicate IsAmz(k: string) {
    AMZ_PREFIX <= ToLower(k)
  }

  function Values(h: Header, name: string): seq<string> {
    var k := CanonicalKey(name);
    if k in h then h[k] else []
  }

  function TrimAll(vs: seq<string>): (ts: seq<string>)
    ensures |ts| == |vs| && forall i :: 0 <= i < |vs| ==> ts[i] == Trim(vs[i])
  {
    seq(|vs|, i requires 0 <= i < |vs| => Trim(vs[i]))
  }

  function Join(xs: seq<string>, sep: string): string {
    if xs == [] then "" else if |xs| == 1 then xs[0] else xs[0] + sep + Join(xs[1..], sep)
  }

  function Line(h: Header, name: string): string {
    name + ":" + Join(TrimAll(Values(h, name)), ",")
  }

  function LinesOf(h: Header, names: seq<string>): (ls: seq<string>)
    ensures |ls| == |names| && forall i :: 0 <= i < |names| ==> ls[i] == Line(h, names[i])
  {
    seq(|names|, i requires 0 <= i < |names| => Line(h, names[i]))
  }

  /** Lower-case names of the x-amz-* keys, in the order the keys come. */
  function AmzNames(order: seq<string>): seq<string> {
    if order == [] then []
    else
      var n := |order| - 1;
      AmzNames(order[..n]) + if IsAmz(order[n]) then [ToLower(order[n])] else []
  }

  /** `names` are the x-amz-* names of `h`, each once, strictly ascending. */
  ghost predicate IsAmzList(h: Header, names: seq<string>) {
    && Ascending(names)
    && (forall s :: s in names ==> AMZ_PREFIX <= s && CanonicalKey(s) in h && ToLower(CanonicalKey(s)) == s)
    && (forall k :: k in h && IsAmz(k) ==> ToLower(k) in names)
  }

  /** Two x-amz-* keys that differ only in case. */
  ghost predicate Clash(order: seq<string>) {
    exists j, k :: j in order && k in order && j != k && IsAmz(j) && ToLower(j) == ToLower(k)
  }

  lemma {:induction false} AmzNamesMean(order: seq<string>)
    ensures forall s :: s in AmzNames(order) <==> exists k :: k in order && IsAmz(k) && ToLower(k) == s
  {
    if order != [] {
      var n := |order| - 1;
      var k, rest := order[n], order[..n];
      assert order == rest + [k];
      AmzNamesMean(rest);
      forall s ensures s in AmzNames(order) <==> exists j :: j in order && IsAmz(j) && ToLower(j) == s {
        if s in AmzNames(order) && s !in AmzNames(rest) {
          assert k in order && IsAmz(k) && ToLower(k) == s;
        }
      }
    }
  }

  lemma DistinctSnoc(xs: seq<string>, x: string)
    ensures Distinct(xs + [x]) <==> Distinct(xs) && x !in xs
  {
    var all := xs + [x];
    assert forall i :: 0 <= i < |xs| ==> all[i] == xs[i];
    assert all[|xs|] == x;
  }

  lemma ClashSnoc(rest: seq<string>, k: string)
    requires k !in rest
    ensures Clash(rest + [k]) <==> Clash(rest) || (IsAmz(k) && ToLower(k) in AmzNames(rest))
  {
    AmzNamesMean(rest);
    assert k in rest + [k];
    if IsAmz(k) && ToLower(k) in AmzNames(rest) {
      var j :| j in rest && IsAmz(j) && ToLower(j) == ToLower(k);
      assert j in rest + [k];
    }
    if Clash(rest) {
      var i, j :| i in rest && j in rest && i != j && IsAmz(i) && ToLower(i) == ToLower(j);
      assert i in rest + [k] && j in rest + [k];
    }
  }

  /** A name is written twice exactly when two keys differ only in case. */
  lemma {:induction false} ListedOnce(order: seq<string>)
    requires Distinct(order)
    ensures Distinct(AmzNames(order)) <==> !Clash(order)
  {
    if order == [] {
      assert AmzNames(order) == [];
    } else {
      var n := |order| - 1;
      var k, rest := order[n], order[..n];
      assert order == rest + [k];
      assert k !in rest && Distinct(rest) by {
        DistinctSnoc(rest, k);
      }
      ListedOnce(rest);
      assert Clash(order) <==> Clash(rest) || (IsAmz(k) && ToLower(k) in AmzNames(rest)) by {
        ClashSnoc(rest, k);
      }
      if IsAmz(k) {
        assert AmzNames(order) == AmzNames(rest) + [ToLower(k)];
        DistinctSnoc(AmzNames(rest), ToLower(k));
      } else {
        assert AmzNames(order) == AmzNames(rest);
      }
    }
  }

  lemma NoClash(h: Header, order: seq<string>)
    requires ProperKeys(h) && Enumerates(order, h.Keys)
    ensures !Clash(order)
  {
    forall j, k | j in order && k in order && ToLower(j) == ToLower(k) ensures j == k {
      LowerFinds(j);
      LowerFinds(k);
    }
  }

  /** Sorting the names found in any order gives the one ascending list. */
  lemma SortedNames(h: Header, order: seq<string>)
    requires ProperKeys(h) && Enumerates(order, h.Keys)
    ensures IsAmzList(h, Sort(AmzNames(order)))
  {
    NoClash(h, order);
    ListedOnce(order);
    AmzNamesMean(order);
    SortMeans(AmzNames(order));
    forall s | s in Sort(AmzNames(order))
      ensures AMZ_PREFIX <= s && CanonicalKey(s) in h && ToLower(CanonicalKey(s)) == s
    {
      var k :| k in order && IsAmz(k) && ToLower(k) == s;
      LowerFinds(k);
    }
    forall k | k in h && IsAmz(k) ensures ToLower(k) in Sort(AmzNames(order)) {
      assert k in order;
    }
  }

  /** The names of the x-amz-* headers, lower-case, as the map gives them. */
  method CollectNames(order: seq<string>) returns (names: seq<string>)
    ensures names == AmzNames(order)
  {
    names := [];
    for i := 0 to |order|
      invariant names == AmzNames(order[..i])
    {
      assert order[..i + 1][..i] == order[..i];
      if AMZ_PREFIX <= ToLower(order[i]) {
        names := names + [ToLower(order[i])];
      }
    }
    assert order[..|order|] == order;
  }

  method TrimValues(values: seq<string>) returns (trimmed: seq<string>)
    ensures trimmed == TrimAll(values)
  {
    var a := new string[|values|](_ => "");
    for i := 0 to |values|
      invariant forall j :: 0 <= j < i ==> a[j] == Trim(values[j])
    {
      a[i] := Trim(values[i]);
    }
    trimmed := a[..];
  }

  /** The x-amz-* block: one line a name, in sorted order. */
  method CanonicalAmzHeaders(h: Header, order: seq<string>) returns (text: string)
    requires Enumerates(order, h.Keys)
    ensures text == Join(LinesOf(h, Sort(AmzNames(order))), "\n")
  {
    var names := CollectNames(order);
    names := Sort(names);
    var lines: seq<string> := [];
    for i := 0 to |names|
      invariant |lines| == i && forall j :: 0 <= j < i ==> lines[j] == Line(h, names[j])
    {
      var trimmed := TrimValues(Values(h, names[i]));
      lines := lines + [names[i] + ":" + Join(trimmed, ",")];
    }
    assert lines == LinesOf(h, names);
    text := Join(lines, "\n");
  }

  // ----- The whole string -----

  function First(h: Header, name: string): string {
    var vs := Values(h, name);
    if vs == [] then "" else vs[0]
  }

  const STANDARD := ["Content-Md5", "Content-Type", "Date"]

  function StandardLines(h: Header, names: seq<string>): string {
    if names == [] then ""
    else
      var n := |names| - 1;
      StandardLines(h, names[..n]) + Trim(First(h, names[n])) + "\n"
  }

  /** What is signed, given the x-amz-* names in the order they are written. */
  function Signed(verb: string, h: Header, path: string, names: seq<string>): string {
    var custom := Join(LinesOf(h, names), "\n");
    ToUpper(verb) + "\n" + StandardLines(h, STANDARD) + (if custom == "" then "" else custom + "\n") + path
  }

  method WriteStandard(h: Header) returns (text: string)
    ensures text == StandardLines(h, STANDARD)
  {
    var names := STANDARD;
    text := "";
    for i := 0 to |names|
      invariant text == StandardLines(h, names[..i])
    {
      assert names[..i + 1][..i] == names[..i];
      text := text + Trim(First(h, names[i])) + "\n";
    }
    assert names[..|names|] == names;
  }

  method StringToSign(verb: string, h: Header, path: string, order: seq<string>) returns (text: string)
    requires Enumerates(order, h.Keys)
    ensures text == Signed(verb, h, path, Sort(AmzNames(order)))
  {
    text := ToUpper(verb) + "\n";
    var standard := WriteStandard(h);
    text := text + standard;
    var custom := CanonicalAmzHeaders(h, order);
    if custom != "" {
      text := text + custom + "\n";
    }
    text := text + path;
  }

  lemma {:induction false} AmzNamesSplit(a: seq<string>, b: seq<string>)
    ensures AmzNames(a + b) == AmzNames(a) + AmzNames(b)
    decreases |b|
  {
    if b == [] {
      assert a + b == a;
    } else {
      var n := |b| - 1;
      assert (a + b)[..|a + b| - 1] == a + b[..n];
      AmzNamesSplit(a, b[..n]);
    }
  }

  /** Where a key stands makes no difference to the sorted names. */
  lemma AmzNamesMiddle(a: seq<string>, k: string, b: seq<string>)
    ensures var rest := Sort(AmzNames(a + b));
      Sort(AmzNames(a + [k] + b)) == if IsAmz(k) then Insert(ToLower(k), rest) else rest
  {
    AmzNamesSplit(a + [k], b);
    AmzNamesSplit(a, b);
    assert (a + [k])[..|a|] == a;
    if IsAmz(k) {
      SortMiddle(AmzNames(a), ToLower(k), AmzNames(b));
    } else {
      assert AmzNames(a) + [] == AmzNames(a);
    }
  }

  /** The order the map is gone through in never shows, whatever the keys. */
  lemma {:induction false} OrderFree(keys: set<string>, o1: seq<string>, o2: seq<string>)
    requires Enumerates(o1, keys) && Enumerates(o2, keys)
    ensures Sort(AmzNames(o1)) == Sort(AmzNames(o2))
    decreases |o1|
  {
    if o1 == [] {
      HasFirst(o2);
    } else {
      var k, rest := o1[0], o1[1..];
      assert k in keys;
      var p :| 0 <= p < |o2| && o2[p] == k;
      var less := o2[..p] + o2[p + 1..];
      assert o1 == [] + [k] + rest && [] + rest == rest;
      assert o2 == o2[..p] + [k] + o2[p + 1..];
      AmzNamesMiddle([], k, rest);
      AmzNamesMiddle(o2[..p], k, o2[p + 1..]);
      Without(o1, 0, keys);
      Without(o2, p, keys);
      assert o1[..0] + o1[1..] == rest;
      OrderFree(keys - {k}, rest, less);
    }
  }

  /** The headers that reach the signature. */
  predicate Reaches(k: string) {
    IsAmz(k) || k in STANDARD
  }

  predicate Agree(g: Header, h: Header, k: string) {
    (k in g <==> k in h) && (k in g && k in h ==> g[k] == h[k])
  }

  lemma StandardNames()
    ensures forall k :: k in STANDARD ==> CanonicalKey(k) == k
  {
    assert Cased("Content-Md5") == "Content-Md5";
    assert Cased("Content-Type") == "Content-Type";
    assert Cased("Date") == "Date";
  }

  lemma {:induction false} StandardAgree(g: Header, h: Header, names: seq<string>)
    requires forall k :: k in names ==> Agree(g, h, CanonicalKey(k))
    ensures StandardLines(g, names) == StandardLines(h, names)
  {
    if names != [] {
      var n := |names| - 1;
      assert names[n] in names;
      StandardAgree(g, h, names[..n]);
    }
  }

  lemma LinesAgree(g: Header, h: Header, names: seq<string>)
    requires forall k :: k in names ==> Agree(g, h, CanonicalKey(k))
    ensures LinesOf(g, names) == LinesOf(h, names)
  {
    forall i | 0 <= i < |names| ensures Line(g, names[i]) == Line(h, names[i]) {
      assert names[i] in names;
    }
  }

  /** The keys of an order that reach the x-amz-* block. */
  function OnlyAmz(order: seq<string>): seq<string> {
    if order == [] then []
    else
      var n := |order| - 1;
      OnlyAmz(order[..n]) + if IsAmz(order[n]) then [order[n]] else []
  }

  lemma OnlySnoc(order: seq<string>, k: string)
    ensures OnlyAmz(order + [k]) == OnlyAmz(order) + if IsAmz(k) then [k] else []
    ensures AmzNames(order + [k]) == AmzNames(order) + if IsAmz(k) then [ToLower(k)] else []
  {
    assert (order + [k])[..|order|] == order;
  }

  lemma {:induction false} OnlyAmzMeans(order: seq<string>)
    ensures forall k :: k in OnlyAmz(order) <==> k in order && IsAmz(k)
    ensures Distinct(order) ==> Distinct(OnlyAmz(order))
  {
    if order != [] {
      var n := |order| - 1;
      var k, rest := order[n], order[..n];
      assert order == rest + [k];
      OnlyAmzMeans(rest);
      OnlySnoc(rest, k);
      DistinctSnoc(rest, k);
      DistinctSnoc(OnlyAmz(rest), k);
    }
  }

  lemma {:induction false} OnlyAmzNames(order: seq<string>)
    ensures AmzNames(OnlyAmz(order)) == AmzNames(order)
  {
    if order != [] {
      var n := |order| - 1;
      var k, rest := order[n], order[..n];
      assert order == rest + [k];
      OnlyAmzNames(rest);
      OnlySnoc(rest, k);
      OnlySnoc(OnlyAmz(rest), k);
      assert OnlyAmz(rest) + [] == OnlyAmz(rest) && AmzNames(rest) + [] == AmzNames(rest);
    }
  }

  /** Maps with the same x-amz-* keys give the same sorted names. */
  lemma NamesAgree(g: Header, o1: seq<string>, h: Header, o2: seq<string>)
    requires Enumerates(o1, g.Keys) && Enumerates(o2, h.Keys)
    requires forall k :: IsAmz(k) ==> (k in g <==> k in h)
    ensures Sort(AmzNames(o1)) == Sort(AmzNames(o2))
  {
    var keys := set k | k in g.Keys && IsAmz(k);
    OnlyAmzMeans(o1);
    OnlyAmzMeans(o2);
    OnlyAmzNames(o1);
    OnlyAmzNames(o2);
    OrderFree(keys, OnlyAmz(o1), OnlyAmz(o2));
  }

  /** A name in the block stands for a key that reaches the signature. */
  lemma NamesReach(order: seq<string>, s: string)
    requires s in Sort(AmzNames(order))
    ensures Reaches(CanonicalKey(s))
  {
    SortKeeps(AmzNames(order), s);
    AmzNamesMean(order);
    var k :| k in order && IsAmz(k) && ToLower(k) == s;
    LowerAgain(k);
    CasedStays(s);
  }

  lemma LowerAgain(k: string)
    ensures ToLower(ToLower(k)) == ToLower(k)
  {
    forall i | 0 <= i < |k| ensures ToLower(ToLower(k))[i] == ToLower(k)[i] {
      LowerCharTurns(k[i]);
    }
  }

  lemma CasedStays(s: string)
    ensures ToLower(CanonicalKey(s)) == ToLower(s)
  {
    forall i | 0 <= i < |s| ensures ToLower(Cased(s))[i] == ToLower(s)[i] {
      LowerCharTurns(s[i]);
    }
    assert ToLower(Cased(s)) == ToLower(s);
  }

  /** What is signed is canonical: no header but the x-amz-* ones and the three
      standard ones changes it, nor does the order they come in. */
  lemma SignedCanonical(verb: string, path: string, g: Header, o1: seq<string>, h: Header, o2: seq<string>)
    requires Enumerates(o1, g.Keys) && Enumerates(o2, h.Keys)
    requires forall k :: Reaches(k) ==> Agree(g, h, k)
    ensures Signed(verb, g, path, Sort(AmzNames(o1))) == Signed(verb, h, path, Sort(AmzNames(o2)))
  {
    var names := Sort(AmzNames(o1));
    forall k | IsAmz(k) ensures k in g <==> k in h {
      assert Reaches(k);
    }
    NamesAgree(g, o1, h, o2);
    forall s | s in names ensures Agree(g, h, CanonicalKey(s)) {
      NamesReach(o1, s);
    }
    LinesAgree(g, h, names);
    StandardNames();
    forall k | k in STANDARD ensures Agree(g, h, CanonicalKey(k)) {
      assert Reaches(k);
    }
    StandardAgree(g, h, STANDARD);
  }

  // ----- What the string looks like -----

  /** The trimmed first value of a header, or nothing. */
  function Given(h: Header, key: string): string {
    if key in h && h[key] != [] then Trim(h[key][0]) else ""
  }

  lemma {:induction false} JoinSplit(xs: seq<string>, ys: seq<string>, sep: string)
    requires xs != [] && ys != []
    ensures Join(xs + ys, sep) == Join(xs, sep) + sep + Join(ys, sep)
  {
    assert (xs + ys)[1..] == xs[1..] + ys;
    if |xs| > 1 {
      JoinSplit(xs[1..], ys, sep);
    }
  }

  lemma {:induction false} JoinLines(ls: seq<string>)
    requires ls != []
    ensures Join(ls, "\n") + "\n" == Unlines(ls)
  {
    if |ls| > 1 {
      JoinLines(ls[1..]);
    } else {
      assert ls[1..] == [];
    }
  }

  /** Nothing is left out of the block, an empty header included. */
  lemma SomeLines(h: Header, names: seq<string>)
    requires names != []
    ensures Join(LinesOf(h, names), "\n") != ""
  {
    assert Line(h, names[0]) != "";
  }

  lemma StandardThree(h: Header)
    ensures StandardLines(h, STANDARD)
         == Given(h, "Content-Md5") + "\n" + Given(h, "Content-Type") + "\n" + Given(h, "Date") + "\n"
  {
    hide StandardLines, Given, CanonicalKey, Cased;
    StandardNames();
    StandardSnoc(h, [], "Content-Md5");
    StandardSnoc(h, ["Content-Md5"], "Content-Type");
    StandardSnoc(h, ["Content-Md5", "Content-Type"], "Date");
    StandardNone(h);
    assert [] + ["Content-Md5"] == ["Content-Md5"];
    assert ["Content-Md5"] + ["Content-Type"] == ["Content-Md5", "Content-Type"];
    assert ["Content-Md5", "Content-Type"] + ["Date"] == STANDARD;
  }

  lemma StandardNone(h: Header)
    ensures StandardLines(h, []) == ""
  {
  }

  lemma StandardSnoc(h: Header, names: seq<string>, name: string)
    requires CanonicalKey(name) == name
    ensures StandardLines(h, names + [name]) == StandardLines(h, names) + Given(h, name) + "\n"
  {
    assert (names + [name])[..|names|] == names;
    StandardOne(h, name);
  }

  lemma StandardOne(h: Header, name: string)
    requires CanonicalKey(name) == name
    ensures Trim(First(h, name)) == Given(h, name)
  {
  }

  /** The string, line by line: the method in capitals, the three standard headers
      in this order, empty if missing, and one line for each name; then the path. */
  lemma SignedLayout(verb: string, h: Header, path: string, names: seq<string>)
    ensures Signed(verb, h, path, names)
         == Unlines([ToUpper(verb), Given(h, "Content-Md5"), Given(h, "Content-Type"), Given(h, "Date")]
                    + LinesOf(h, names)) + path
  {
    var head := [ToUpper(verb), Given(h, "Content-Md5"), Given(h, "Content-Type"), Given(h, "Date")];
    var block := Unlines(LinesOf(h, names));
    StandardThree(h);
    UnlinesFour(head[0], head[1], head[2], head[3], LinesOf(h, names));
    if names == [] {
      assert LinesOf(h, names) == [];
    } else {
      SomeLines(h, names);
      JoinLines(LinesOf(h, names));
    }
    assert Signed(verb, h, path, names) == ToUpper(verb) + "\n" + StandardLines(h, STANDARD) + block + path;
  }

  lemma UnlinesFour(a: string, b: string, c: string, d: string, ls: seq<string>)
    ensures Unlines([a, b, c, d] + ls) == a + "\n" + (b + "\n" + c + "\n" + d + "\n") + Unlines(ls)
  {
    assert [a, b, c, d] + ls == [a] + ([b] + ([c] + ([d] + ls)));
    UnlinesCons(a, [b] + ([c] + ([d] + ls)));
    UnlinesCons(b, [c] + ([d] + ls));
    UnlinesCons(c, [d] + ls);
    UnlinesCons(d, ls);
  }

  lemma UnlinesCons(a: string, ls: seq<string>)
    ensures Unlines([a] + ls) == a + "\n" + Unlines(ls)
  {
    assert ([a] + ls)[1..] == ls;
  }

  /** The line of a header: its name in small letters and its values, each trimmed,
      with commas between them. */
  lemma LineMeans(h: Header, k: string, us: seq<string>, v: string)
    requires Proper(k) && k in h && h[k] == us + [v]
    ensures Line(h, ToLower(k))
         == ToLower(k) + ":" + (if us == [] then "" else Join(TrimAll(us), ",") + ",") + Trim(v)
  {
    LowerFinds(k);
    assert TrimAll(us + [v]) == TrimAll(us) + [Trim(v)];
    if us == [] {
      assert TrimAll(us) == [];
      assert [] + [Trim(v)] == [Trim(v)];
    } else {
      JoinSplit(TrimAll(us), [Trim(v)], ",");
    }
  }
}
