/** Names that stay inside the S3 limit: the configured prefix (config.go) and
    the names one test hands out (fixture.go). */
module BucketNames {
  import opened Tests
  import opened Text

  const ALPHABET := "abcdefghijklmnopqrstuvwxyz0123456789"

  /** A draw from the alphabet. */
  type Draw = n: nat | n < 36

  predicate IsPlain(c: char) {
    'a' <= c <= 'z' || '0' <= c <= '9'
  }

  lemma AlphabetPlain(d: Draw)
    ensures |ALPHABET| == 36 && IsPlain(ALPHABET[d])
  {
    assert d < 26 ==> ALPHABET[d] == 'a' + d as char;
  }

  /** `n` letters and digits, whatever is drawn. */
  method RandomString(n: nat, draws: nat -> Draw) returns (s: string)
    ensures |s| == n && forall i :: 0 <= i < n ==> s[i] == ALPHABET[draws(i)]
    ensures forall i :: 0 <= i < n ==> IsPlain(s[i])
  {
    var b := new char[n](_ => '-');
    for i := 0 to n
      invariant forall j :: 0 <= j < i ==> b[j] == ALPHABET[draws(j)] && IsPlain(b[j])
    {
      AlphabetPlain(draws(i));
      b[i] := ALPHABET[draws(i)];
    }
    s := b[..];
  }

  // ----- The prefix template -----

  const PLACEHOLDER := "{random}"
  const MAX_PREFIX := 30

  /** Every placeholder replaced, from the left. */
  function Replace(s: string, filler: string): string
    decreases |s|
  {
    if s == "" then ""
    else if PLACEHOLDER <= s then filler + Replace(s[|PLACEHOLDER|..], filler)
    else [s[0]] + Replace(s[1..], filler)
  }

  /** How many placeholders are replaced. */
  function Placeholders(s: string): nat
    decreases |s|
  {
    if s == "" then 0
    else if PLACEHOLDER <= s then 1 + Placeholders(s[|PLACEHOLDER|..])
    else Placeholders(s[1..])
  }

  predicate Contains(s: string) {
    exists i :: 0 <= i <= |s| && PLACEHOLDER <= s[i..]
  }

  /** The length left when the placeholders are taken out. */
  function Fixed(s: string): nat {
    |Replace(s, "")|
  }

  lemma OneMore(k: nat, m: nat)
    ensures (1 + k) * m == m + k * m
  {
  }

  lemma {:induction false} ReplaceLength(s: string, filler: string)
    ensures |Replace(s, filler)| == Fixed(s) + Placeholders(s) * |filler|
    decreases |s|
  {
    if s == "" {
    } else if PLACEHOLDER <= s {
      var rest := s[|PLACEHOLDER|..];
      ReplaceLength(rest, filler);
      OneMore(Placeholders(rest), |filler|);
    } else {
      ReplaceLength(s[1..], filler);
    }
  }

  lemma {:induction false} ReplaceNone(s: string, filler: string)
    ensures Placeholders(s) > 0 <==> Contains(s)
    ensures !Contains(s) ==> Replace(s, filler) == s
    decreases |s|
  {
    if s == "" {
    } else if PLACEHOLDER <= s {
      assert s[0..] == s;
    } else {
      ReplaceNone(s[1..], filler);
      if Contains(s) {
        var i :| 0 <= i <= |s| && PLACEHOLDER <= s[i..];
        assert i > 0 by {
          assert s[0..] == s;
        }
        assert s[1..][i - 1..] == s[i..];
      }
      if Contains(s[1..]) {
        var i :| 0 <= i <= |s[1..]| && PLACEHOLDER <= s[1..][i..];
        assert s[1..][i..] == s[i + 1..];
      }
    }
  }

  /** A placeholder anywhere gives way to the filler, and the text before and
      after it is filled in as if on its own. */
  lemma {:induction false} ReplaceBetween(before: string, after: string, filler: string)
    ensures Replace(before + PLACEHOLDER + after, filler) == Replace(before, filler) + filler + Replace(after, filler)
    decreases |before|
  {
    var s := before + PLACEHOLDER + after;
    if before == "" {
      assert s == PLACEHOLDER + after;
      assert s[|PLACEHOLDER|..] == after;
    } else if PLACEHOLDER <= before {
      assert PLACEHOLDER <= s;
      assert s[|PLACEHOLDER|..] == before[|PLACEHOLDER|..] + PLACEHOLDER + after;
      ReplaceBetween(before[|PLACEHOLDER|..], after, filler);
    } else {
      NoOverlap(before, after);
      assert s[0] == before[0] && s[1..] == before[1..] + PLACEHOLDER + after;
      ReplaceBetween(before[1..], after, filler);
    }
  }

  /** A placeholder does not begin inside another one. */
  lemma NoOverlap(before: string, after: string)
    requires before != "" && !(PLACEHOLDER <= before)
    ensures !(PLACEHOLDER <= before + PLACEHOLDER + after)
  {
    var s, n := before + PLACEHOLDER + after, |PLACEHOLDER|;
    if |before| < n {
      assert s[|before|] == '{' && PLACEHOLDER[|before|] != '{';
    } else {
      assert s[..n] == before[..n];
    }
  }

  /** The prefix, or none when the fixed part alone is too long. */
  method BucketPrefix(template: string, draws: nat -> Draw) returns (r: Option<string>, ghost filler: string)
    ensures r == None <==> Fixed(template) > MAX_PREFIX
    ensures r.Some? ==> r.value == Replace(template, filler)
    ensures r.Some? ==> |filler| == MAX_PREFIX - Fixed(template) && forall i :: 0 <= i < |filler| ==> IsPlain(filler[i])
    ensures r.Some? && !Contains(template) ==> r.value == template
    ensures r.Some? ==> |r.value| == Fixed(template) + Placeholders(template) * (MAX_PREFIX - Fixed(template))
    ensures r.Some? ==> (|r.value| <= MAX_PREFIX <==> Placeholders(template) <= 1 || Fixed(template) == MAX_PREFIX)
  {
    var fixed := |Replace(template, "")|;
    if fixed > MAX_PREFIX {
      return None, "";
    }
    var random := RandomString(MAX_PREFIX - fixed, draws);
    filler := random;
    ReplaceNone(template, random);
    ReplaceLength(template, random);
    PrefixFits(Placeholders(template), fixed);
    if !Contains(template) {
      return Some(template), random;
    }
    r := Some(Replace(template, random));
  }

  /** One filler fits; a second one fits only when there is nothing to fill. */
  lemma PrefixFits(k: nat, fixed: nat)
    requires fixed <= MAX_PREFIX
    ensures fixed + k * (MAX_PREFIX - fixed) <= MAX_PREFIX <==> k <= 1 || fixed == MAX_PREFIX
  {
    var room := MAX_PREFIX - fixed;
    if k > 1 && room > 0 {
      assert k * room >= 2 * room by {
        assert (k - 2) * room >= 0;
      }
    } else if k == 1 {
      assert k * room == room;
    } else if k == 0 {
      assert k * room == 0;
    }
  }

  /** Two placeholders with nothing beside them: 60 characters, not 30. */
  lemma TwoPlaceholders(filler: string)
    requires |filler| == MAX_PREFIX - Fixed(PLACEHOLDER + PLACEHOLDER)
    ensures |Replace(PLACEHOLDER + PLACEHOLDER, filler)| == 60
  {
    TwoCounted();
    ReplaceLength(PLACEHOLDER + PLACEHOLDER, filler);
  }

  lemma TwoCounted()
    ensures Placeholders(PLACEHOLDER + PLACEHOLDER) == 2 && Fixed(PLACEHOLDER + PLACEHOLDER) == 0
  {
    assert (PLACEHOLDER + PLACEHOLDER)[|PLACEHOLDER|..] == PLACEHOLDER;
    assert PLACEHOLDER[|PLACEHOLDER|..] == "";
    assert PLACEHOLDER <= PLACEHOLDER + PLACEHOLDER;
    assert Replace(PLACEHOLDER, "") == "" + Replace("", "");
  }

  // ----- The readable part -----

  const MAX_SLUG := 16

  predicate IsSolid(c: char) {
    IsPlain(LowerChar(c))
  }

  /** How far a word reaches. */
  function WordEnd(name: string): (n: nat)
    ensures n <= |name|
    ensures forall i :: 0 <= i < n ==> IsSolid(name[i])
    ensures n < |name| ==> !IsSolid(name[n])
  {
    if name == "" || !IsSolid(name[0]) then 0 else 1 + WordEnd(name[1..])
  }

  /** The runs of letters and digits of a name, in lower case. */
  function Words(name: string): (ws: seq<string>)
    ensures forall w :: w in ws ==> w != "" && forall i :: 0 <= i < |w| ==> IsPlain(w[i])
    decreases |name|
  {
    if name == "" then []
    else
      var n := WordEnd(name);
      if n == 0 then Words(name[1..]) else [ToLower(name[..n])] + Words(name[n..])
  }

  function Dashed(ws: seq<string>): string {
    if ws == [] then "" else if |ws| == 1 then ws[0] else ws[0] + "-" + Dashed(ws[1..])
  }

  function Cut(s: string): string {
    if |s| <= MAX_SLUG then s else s[..MAX_SLUG]
  }

  function TrimDashLeft(s: string): string {
    if s != "" && s[0] == '-' then TrimDashLeft(s[1..]) else s
  }

  function TrimDashRight(s: string): string {
    if s != "" && s[|s| - 1] == '-' then TrimDashRight(s[..|s| - 1]) else s
  }

  function TrimDashes(s: string): string {
    TrimDashRight(TrimDashLeft(s))
  }

  /** The words of the name, joined by dashes and cut short. */
  function SlugOf(name: string): string {
    TrimDashes(Cut(Dashed(Words(name))))
  }

  predicate IsNameChar(c: char) {
    IsPlain(c) || c == '-'
  }

  /** Letters, digits and dashes, no dash first and no two dashes together. */
  ghost predicate Neat(s: string) {
    && (forall i :: 0 <= i < |s| ==> IsNameChar(s[i]))
    && (s != "" ==> s[0] != '-')
    && (forall i, j :: 0 <= i < j < |s| && j == i + 1 ==> s[i] != '-' || s[j] != '-')
  }

  ghost predicate IsSlug(s: string) {
    Neat(s) && |s| <= MAX_SLUG && (s != "" ==> s[|s| - 1] != '-')
  }

  lemma {:induction false} DashedNeat(ws: seq<string>)
    requires forall w :: w in ws ==> w != "" && forall i :: 0 <= i < |w| ==> IsPlain(w[i])
    ensures Neat(Dashed(ws))
    ensures ws != [] ==> Dashed(ws) != "" && Dashed(ws)[|Dashed(ws)| - 1] != '-'
  {
    if ws != [] {
      assert ws[0] in ws;
      var rest := ws[1..];
      assert ws == [ws[0]] + rest;
      if |ws| > 1 {
        DashedNeat(rest);
        var s, w, t := Dashed(ws), ws[0], Dashed(rest);
        assert s == w + "-" + t;
        forall i | 0 <= i < |s| ensures IsNameChar(s[i]) {
          assert s[i] == if i < |w| then w[i] else if i == |w| then '-' else t[i - |w| - 1];
        }
        forall i, j | 0 <= i < j < |s| && j == i + 1 ensures s[i] != '-' || s[j] != '-' {
          assert i < |w| ==> s[i] == w[i];
          assert i >= |w| ==> s[j] == t[j - |w| - 1];
          assert i > |w| ==> s[i] == t[i - |w| - 1];
        }
      }
    }
  }

  /** Cutting neat text and trimming it gives a slug. */
  lemma NeatTrims(s: string)
    requires Neat(s) && |s| <= MAX_SLUG
    ensures IsSlug(TrimDashes(s))
    ensures TrimDashes(s) == if s != "" && s[|s| - 1] == '-' then s[..|s| - 1] else s
  {
    assert TrimDashLeft(s) == s;
    if s != "" && s[|s| - 1] == '-' {
      var t := s[..|s| - 1];
      assert |s| > 1 && s[|s| - 2] != '-';
      assert TrimDashRight(s) == TrimDashRight(t) == t;
    }
  }

  /** Whatever the test is called, the slug is short and fit for a bucket name. */
  lemma SlugIsSlug(name: string)
    ensures IsSlug(SlugOf(name))
  {
    DashedNeat(Words(name));
    NeatTrims(Cut(Dashed(Words(name))));
  }

  predicate EndsPlain(s: string) {
    s != "" ==> s[|s| - 1] != '-'
  }

  lemma SuffixNeat(s: string, k: nat)
    requires Neat(s) && k < |s| && s[k] != '-'
    ensures Neat(s[k..]) && s[k..] != "" && s[k..][|s| - k - 1] == s[|s| - 1]
  {
    var t := s[k..];
    forall i | 0 <= i < |t| ensures IsNameChar(t[i]) {
      assert IsNameChar(s[k + i]);
    }
    forall i, j | 0 <= i < j < |t| && j == i + 1 ensures t[i] != '-' || t[j] != '-' {
      assert t[i] == s[k + i] && t[j] == s[k + j];
    }
  }

  lemma NameCharSolid(c: char)
    requires IsNameChar(c)
    ensures IsSolid(c) <==> c != '-'
  {
  }

  /** What follows the first word and its dash is neat again. */
  lemma NeatTail(s: string, n: nat)
    requires Neat(s) && EndsPlain(s) && n < |s| && n == WordEnd(s)
    ensures s[n] == '-' && 0 < n < |s| - 1
    ensures Neat(s[n + 1..]) && EndsPlain(s[n + 1..])
  {
    NameCharSolid(s[n]);
    NameCharSolid(s[0]);
    NameCharSolid(s[|s| - 1]);
    assert s[n + 1] != '-';
    SuffixNeat(s, n + 1);
  }

  lemma FirstWord(s: string, n: nat)
    requires Neat(s) && n == WordEnd(s) && 0 < n < |s|
    ensures Words(s) == [s[..n]] + Words(s[n + 1..])
  {
    assert ToLower(s[..n]) == s[..n] by {
      assert forall i :: 0 <= i < n ==> IsNameChar(s[i]);
    }
    assert !IsSolid(s[n]) && s[n..][0] == s[n];
    assert s[n..][1..] == s[n + 1..] && WordEnd(s[n..]) == 0;
  }

  lemma DashedCons(w: string, ws: seq<string>)
    ensures Dashed([w] + ws) == if ws == [] then w else w + "-" + Dashed(ws)
  {
    assert ([w] + ws)[1..] == ws;
  }

  lemma SplitDash(s: string, n: nat)
    requires n < |s| && s[n] == '-'
    ensures s[..n] + "-" + s[n + 1..] == s
  {
  }

  lemma OneWord(s: string)
    requires Neat(s) && s != "" && WordEnd(s) == |s|
    ensures Words(s) == [s]
  {
    assert s[..|s|] == s && Words(s[|s|..]) == [];
    assert ToLower(s) == s by {
      assert forall i :: 0 <= i < |s| ==> IsNameChar(s[i]);
    }
  }

  lemma {:induction false} WordsOfNeat(s: string)
    requires Neat(s) && EndsPlain(s)
    ensures Dashed(Words(s)) == s
    ensures s != "" ==> Words(s) != []
    decreases |s|
  {
    var n := WordEnd(s);
    if s == "" {
    } else if n == |s| {
      OneWord(s);
    } else {
      NeatTail(s, n);
      FirstWord(s, n);
      WordsOfNeat(s[n + 1..]);
      DashedCons(s[..n], Words(s[n + 1..]));
      SplitDash(s, n);
    }
  }

  /** A slug is its own slug. */
  lemma SlugFixed(s: string)
    requires IsSlug(s)
    ensures SlugOf(s) == s
  {
    WordsOfNeat(s);
    NeatTrims(s);
  }

  /** One character of the name, without the limit. */
  function Step(b: string, c: char): string {
    if IsSolid(c) then b + [LowerChar(c)]
    else if b != "" && b[|b| - 1] != '-' then b + "-"
    else b
  }

  function Written(b: string, name: string): (w: string)
    ensures b <= w
    decreases |name|
  {
    if name == "" then b else Written(Step(b, name[0]), name[1..])
  }

  lemma LowerSnoc(b: string, c: char, s: string)
    ensures b + [LowerChar(c)] + ToLower(s) == b + ToLower([c] + s)
  {
  }

  lemma WrittenStep(b: string, c: char, s: string)
    ensures Written(b, [c] + s) == Written(Step(b, c), s)
  {
    assert ([c] + s)[1..] == s;
  }

  lemma {:induction false} WrittenWord(b: string, word: string, rest: string)
    requires forall i :: 0 <= i < |word| ==> IsSolid(word[i])
    ensures Written(b, word + rest) == Written(b + ToLower(word), rest)
    decreases |word|
  {
    if word == "" {
      assert word + rest == rest && b + ToLower(word) == b;
    } else {
      var c, more := word[0], word[1..];
      assert word + rest == [c] + (more + rest);
      WrittenStep(b, c, more + rest);
      assert forall i :: 0 <= i < |more| ==> more[i] == word[i + 1];
      WrittenWord(b + [LowerChar(c)], more, rest);
      LowerSnoc(b, c, more);
      assert [c] + more == word;
    }
  }

  lemma WordEnds(b: string, word: string)
    requires word != "" && IsSolid(word[|word| - 1])
    ensures var grown := b + ToLower(word); grown[|grown| - 1] != '-'
  {
  }

  /** A word written after `b`, and the dash after it when more text follows. */
  lemma WrittenFirst(b: string, name: string, n: nat)
    requires n == WordEnd(name) && n > 0
    ensures var grown := b + ToLower(name[..n]);
      Written(b, name) == if n == |name| then grown else Written(grown + "-", name[n + 1..])
  {
    var word, rest := name[..n], name[n..];
    assert name == word + rest;
    WrittenWord(b, word, rest);
    WordEnds(b, word);
    if rest != "" {
      assert rest[0] == name[n] && rest[1..] == name[n + 1..];
    }
  }

  lemma WordsFirst(name: string, n: nat)
    requires n == WordEnd(name) && n > 0
    ensures Words(name) == [ToLower(name[..n])] + if n == |name| then [] else Words(name[n + 1..])
  {
    if n < |name| {
      var rest := name[n..];
      assert rest[0] == name[n] && rest[1..] == name[n + 1..];
    }
  }

  /** The words that follow a first one, after the text `b`. */
  lemma Regroup(b: string, w: string, ws: seq<string>)
    ensures b + Dashed([w] + ws) == if ws == [] then b + w else (b + w + "-") + Dashed(ws)
    ensures b + Dashed([w] + ws) + "-" == if ws == [] then b + w + "-" else (b + w + "-") + Dashed(ws) + "-"
  {
    DashedCons(w, ws);
  }

  /** Without the limit, the words joined by dashes come out, with one more
      dash at most. */
  lemma {:induction false} WrittenMeans(b: string, name: string)
    requires b == "" || b[|b| - 1] == '-'
    ensures var text := b + Dashed(Words(name));
      Written(b, name) == text || (Words(name) != [] && Written(b, name) == text + "-")
    decreases |name|
  {
    var n := WordEnd(name);
    if name == "" {
      assert b + "" == b;
    } else if n == 0 {
      WrittenMeans(b, name[1..]);
    } else {
      var w := ToLower(name[..n]);
      WrittenFirst(b, name, n);
      WordsFirst(name, n);
      if n == |name| {
        Regroup(b, w, []);
      } else {
        var t := name[n + 1..];
        WrittenMeans(b + w + "-", t);
        Regroup(b, w, Words(t));
        assert Words(t) == [] ==> b + w + "-" + Dashed([]) == b + w + "-";
      }
    }
  }

  /** One more dash at the end is cut or trimmed. */
  lemma DashTrims(text: string)
    requires Neat(text) && EndsPlain(text) && text != ""
    ensures TrimDashes(Cut(text + "-")) == TrimDashes(Cut(text))
  {
    var more := text + "-";
    if |text| < MAX_SLUG {
      assert more[..|more| - 1] == text;
      NeatTrims(text);
      assert Neat(more) by {
        assert forall i :: 0 <= i < |text| ==> more[i] == text[i];
      }
      NeatTrims(more);
    } else {
      assert Cut(more) == Cut(text);
    }
  }

  /** The limit cuts the unlimited text, and the trailing dash goes. */
  lemma CutWritten(name: string)
    ensures TrimDashes(Cut(Written("", name))) == SlugOf(name)
  {
    var text := Dashed(Words(name));
    WrittenMeans("", name);
    assert "" + text == text;
    DashedNeat(Words(name));
    if Written("", name) != text {
      DashTrims(text);
    }
  }

  /** Letters and digits of the name, lower-cased, and one dash for what is
      between them. */
  method Slug(name: string) returns (s: string)
    ensures s == SlugOf(name)
    ensures IsSlug(s)
  {
    var b := "";
    var i := 0;
    while i < |name| && |b| != MAX_SLUG
      invariant 0 <= i <= |name| && |b| <= MAX_SLUG
      invariant Written(b, name[i..]) == Written("", name)
    {
      var c := name[i];
      assert name[i..][0] == c && name[i..][1..] == name[i + 1..];
      if IsPlain(c) {
        b := b + [c];
      } else if 'A' <= c <= 'Z' {
        b := b + [c - 'A' + 'a'];
      } else if b != "" && b[|b| - 1] != '-' {
        b := b + "-";
      }
      i := i + 1;
    }
    assert Cut(Written(b, name[i..])) == b;
    CutWritten(name);
    SlugIsSlug(name);
    s := TrimDashes(b);
  }

  // ----- Names that share a slug -----

  predicate IsLetterOrDigit(c: char) {
    'a' <= c <= 'z' || 'A' <= c <= 'Z' || '0' <= c <= '9'
  }

  /** Characters that are written alike: the same, or a capital and its small
      letter, or neither of them a letter or digit. */
  predicate Alike(c: char, d: char) {
    || c == d
    || (!IsLetterOrDigit(c) && !IsLetterOrDigit(d))
    || ('A' <= c <= 'Z' && d as int == c as int + 32)
    || ('A' <= d <= 'Z' && c as int == d as int + 32)
  }

  predicate AllAlike(a: string, b: string) {
    |a| == |b| && forall i :: 0 <= i < |a| ==> Alike(a[i], b[i])
  }

  lemma AlikeStep(b: string, c: char, d: char)
    requires Alike(c, d)
    ensures Step(b, c) == Step(b, d)
  {
  }

  lemma {:induction false} AlikeWritten(b: string, x: string, y: string)
    requires AllAlike(x, y)
    ensures Written(b, x) == Written(b, y)
    decreases |x|
  {
    if x != "" {
      AlikeStep(b, x[0], y[0]);
      AlikeWritten(Step(b, x[0]), x[1..], y[1..]);
    }
  }

  /** Capitals count as small letters, and every other character as a dash. */
  lemma SlugAlike(x: string, y: string)
    requires AllAlike(x, y)
    ensures SlugOf(x) == SlugOf(y)
  {
    AlikeWritten("", x, y);
    CutWritten(x);
    CutWritten(y);
  }

  lemma {:induction false} WrittenConcat(b: string, x: string, y: string)
    ensures Written(b, x + y) == Written(Written(b, x), y)
    decreases |x|
  {
    if x == "" {
      assert x + y == y;
    } else {
      assert (x + y)[1..] == x[1..] + y;
      WrittenConcat(Step(b, x[0]), x[1..], y);
    }
  }

  lemma {:induction false} DashesWritten(b: string, n: nat)
    requires b == "" || b[|b| - 1] == '-'
    ensures Written(b, seq(n, _ => '-')) == b
  {
    if n > 0 {
      assert seq(n, _ => '-')[1..] == seq(n - 1, _ => '-');
      DashesWritten(b, n - 1);
    }
  }

  /** A row of dashes counts as one, and one before the first letter or digit
      as none. */
  lemma SlugDashes(x: string, n: nat, y: string)
    requires x == "" || x[|x| - 1] == '-'
    ensures SlugOf(x + seq(n, _ => '-') + y) == SlugOf(x + y)
  {
    var dashes := seq(n, _ => '-');
    EndsInDash("", x);
    WrittenConcat("", x + dashes, y);
    WrittenConcat("", x, dashes);
    WrittenConcat("", x, y);
    DashesWritten(Written("", x), n);
    CutWritten(x + dashes + y);
    CutWritten(x + y);
  }

  /** After a dash, and at the start, what is written ends in a dash or is empty. */
  lemma EndsInDash(b: string, x: string)
    requires b == "" && (x == "" || x[|x| - 1] == '-')
    ensures Written(b, x) == "" || Written(b, x)[|Written(b, x)| - 1] == '-'
  {
    if x != "" {
      var n := |x| - 1;
      assert x == x[..n] + "-";
      WrittenConcat(b, x[..n], "-");
      WrittenStep(Written(b, x[..n]), '-', "");
      assert ['-'] + "" == "-";
    }
  }

  /** A name that is neat already, however long, is only cut and trimmed. With the
      two above, that is the slug of every name. */
  lemma SlugNeat(s: string)
    requires Neat(s) && EndsPlain(s)
    ensures SlugOf(s) == TrimDashes(if |s| > 16 then s[..16] else s)
  {
    WordsOfNeat(s);
  }

  // ----- The names of one test -----

  const MAX_NAME := 63

  function Digit(n: nat): char
    requires n < 10
  {
    '0' + n as char
  }

  function Decimal(n: nat): (s: string)
    ensures s != ""
  {
    if n < 10 then [Digit(n)] else Decimal(n / 10) + [Digit(n % 10)]
  }

  function Power(d: nat): nat {
    if d == 0 then 1 else 10 * Power(d - 1)
  }

  /** Reading digits back. */
  function ValueOf(s: string): nat {
    if s == "" then 0
    else
      var n := |s| - 1;
      10 * ValueOf(s[..n]) + if '0' <= s[n] <= '9' then s[n] as nat - '0' as nat else 0
  }

  lemma {:induction false} DecimalMeans(n: nat)
    ensures ValueOf(Decimal(n)) == n
    ensures forall i :: 0 <= i < |Decimal(n)| ==> '0' <= Decimal(n)[i] <= '9'
    ensures n > 0 ==> Decimal(n)[0] != '0'
  {
    var s := Decimal(n);
    if n < 10 {
      assert s[..0] == "" && ValueOf(s[..0]) == 0;
    } else {
      DecimalMeans(n / 10);
      assert s[..|s| - 1] == Decimal(n / 10);
    }
  }

  lemma {:induction false} DecimalInjective(m: nat, n: nat)
    requires Decimal(m) == Decimal(n)
    ensures m == n
  {
    var s := Decimal(m);
    assert s[|s| - 1] == Digit(m % 10) == Digit(n % 10);
    if m >= 10 && n >= 10 {
      assert s[..|s| - 1] == Decimal(m / 10) == Decimal(n / 10);
      DecimalInjective(m / 10, n / 10);
    } else {
      assert m >= 10 ==> |s| > 1;
      assert n >= 10 ==> |s| > 1;
    }
  }

  /** A number takes at most `d` digits exactly when it is below that power. */
  lemma {:induction false} DecimalFits(n: nat, d: nat)
    requires d > 0
    ensures |Decimal(n)| <= d <==> n < Power(d)
    decreases d
  {
    if d == 1 {
      assert Power(1) == 10 * Power(0);
    } else {
      DecimalFits(n / 10, d - 1);
      PowerPositive(d - 1);
      assert n / 10 < Power(d - 1) <==> n < 10 * Power(d - 1);
    }
  }

  lemma {:induction false} PowerPositive(d: nat)
    requires d > 0
    ensures Power(d) >= 10
  {
    if d > 1 {
      PowerPositive(d - 1);
    }
  }

  /** What tells concurrent runs apart. */
  predicate IsToken(token: string) {
    |token| == 4 && forall i :: 0 <= i < 4 ==> IsPlain(token[i])
  }

  /** The test environment, as far as it names buckets. */
  class Env {
    const prefix: string
    var n: nat
    /** The names handed out. */
    ghost var given: set<string>

    ghost predicate Valid()
      reads this
    {
      forall name :: name in given <==> exists i :: 0 < i <= n && name == Name(i)
    }

    function Name(i: nat): string {
      prefix + Decimal(i)
    }

    /** A prefix of its own for one test. */
    constructor (configured: string, test: string, draws: nat -> Draw)
      ensures Valid() && n == 0 && given == {}
      ensures exists token: string :: IsToken(token) && prefix == configured + SlugOf(test) + "-" + token + "-"
    {
      var slug := Slug(test);
      var token := RandomString(4, draws);
      prefix := configured + slug + "-" + token + "-";
      n := 0;
      given := {};
      new;
      assert IsToken(token) && prefix == configured + SlugOf(test) + "-" + token + "-";
    }

    /** A name that was not handed out before. */
    method NewBucketName() returns (name: string)
      requires Valid()
      modifies this
      ensures Valid() && n == old(n) + 1 && name == Name(n)
      ensures name !in old(given) && given == old(given) + {name}
    {
      forall i | 0 < i <= n ensures Name(i) != Name(n + 1) {
        NamesDiffer(prefix, i, n + 1);
      }
      n := n + 1;
      name := prefix + Decimal(n);
      given := given + {name};
      assert name == Name(n);
    }
  }

  lemma NamesDiffer(prefix: string, i: nat, j: nat)
    requires i != j
    ensures prefix + Decimal(i) != prefix + Decimal(j)
  {
    if prefix + Decimal(i) == prefix + Decimal(j) {
      assert (prefix + Decimal(i))[|prefix|..] == Decimal(i);
      assert (prefix + Decimal(j))[|prefix|..] == Decimal(j);
      DecimalInjective(i, j);
    }
  }

  /** The names of a test fit exactly as long as the counter has the digits the
      prefix leaves; eleven, when the configured prefix fits its own limit. */
  lemma NamesFit(configured: string, test: string, token: string, n: nat)
    requires |configured| <= MAX_PREFIX && IsToken(token)
    ensures var prefix := configured + SlugOf(test) + "-" + token + "-";
      && |prefix| <= 52
      && (|prefix + Decimal(n)| <= MAX_NAME <==> n < Power(MAX_NAME - |prefix|))
      && (n < Power(11) ==> |prefix + Decimal(n)| <= MAX_NAME)
  {
    var slug := SlugOf(test);
    assert |slug| <= MAX_SLUG by {
      SlugIsSlug(test);
    }
    var prefix := configured + slug + "-" + token + "-";
    assert |prefix| == |configured| + |slug| + 6;
    assert |prefix + Decimal(n)| == |prefix| + |Decimal(n)|;
    DecimalFits(n, MAX_NAME - |prefix|);
    DecimalFits(n, 11);
  }
}
