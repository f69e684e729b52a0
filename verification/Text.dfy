/** The string helpers the text formats are built on, for ASCII text. */
module Text {

  predicate IsSpace(c: char) {
    ('\t' <= c <= '\r') || c == ' '
  }

  function TrimLeft(s: string): string {
    if s != "" && IsSpace(s[0]) then TrimLeft(s[1..]) else s
  }

  function TrimRight(s: string): string {
    if s != "" && IsSpace(s[|s| - 1]) then TrimRight(s[..|s| - 1]) else s
  }

  function Trim(s: string): string {
    TrimRight(TrimLeft(s))
  }

  /** Neither starts nor ends with white space. */
  predicate Trimmed(s: string) {
    s == "" || (!IsSpace(s[0]) && !IsSpace(s[|s| - 1]))
  }

  lemma TrimTrimmed(s: string)
    requires Trimmed(s)
    ensures Trim(s) == s
  {
  }

  lemma TrimAfter(s: string)
    requires Trimmed(s)
    ensures Trim(s + " ") == s
  {
    if s == "" {
      assert (s + " ")[1..] == "";
      assert TrimLeft(" ") == TrimLeft("");
    } else {
      assert TrimLeft(s + " ") == s + " ";
      assert (s + " ")[..|s + " "| - 1] == s;
      assert TrimRight(s + " ") == TrimRight(s);
    }
  }

  lemma TrimBefore(s: string)
    requires Trimmed(s)
    ensures Trim(" " + s) == s
  {
    assert (" " + s)[1..] == s;
    assert TrimLeft(" " + s) == TrimLeft(s);
  }

  /** Nothing but the six ASCII characters that are white space. */
  predicate Spaces(s: string) {
    forall i :: 0 <= i < |s| ==> s[i] in [' ', '\t', '\n', '\U{b}', '\U{c}', '\r']
  }

  lemma {:induction false} TrimLeftPadded(p: string, t: string)
    requires Spaces(p)
    ensures TrimLeft(p + t) == TrimLeft(t)
  {
    if p == "" {
      assert p + t == t;
    } else {
      assert (p + t)[1..] == p[1..] + t;
      TrimLeftPadded(p[1..], t);
    }
  }

  lemma {:induction false} TrimRightPadded(t: string, q: string)
    requires Spaces(q)
    ensures TrimRight(t + q) == TrimRight(t)
    decreases |q|
  {
    if q == "" {
      assert t + q == t;
    } else {
      var n := |q| - 1;
      assert (t + q)[..|t + q| - 1] == t + q[..n];
      TrimRightPadded(t, q[..n]);
    }
  }

  /** Trimming takes away the white space around a text, and no more. */
  lemma TrimPadded(p: string, t: string, q: string)
    requires Spaces(p) && Spaces(q) && Trimmed(t)
    ensures Trim(p + t + q) == t
  {
    assert p + t + q == p + (t + q);
    TrimLeftPadded(p, t + q);
    if t == "" {
      assert t + q == q && q + "" == q;
      TrimLeftPadded(q, "");
    } else {
      assert TrimLeft(t + q) == t + q;
      TrimRightPadded(t, q);
    }
  }

  lemma {:induction false} TrimLeftSplits(s: string) returns (p: string)
    ensures Spaces(p) && s == p + TrimLeft(s) && (TrimLeft(s) != "" ==> !IsSpace(TrimLeft(s)[0]))
  {
    if s != "" && IsSpace(s[0]) {
      var rest := TrimLeftSplits(s[1..]);
      p := [s[0]] + rest;
      assert s == [s[0]] + s[1..];
    } else {
      p := "";
    }
  }

  lemma {:induction false} TrimRightSplits(s: string) returns (q: string)
    ensures Spaces(q) && s == TrimRight(s) + q && TrimRight(s) <= s
    ensures TrimRight(s) != "" ==> !IsSpace(TrimRight(s)[|TrimRight(s)| - 1])
  {
    if s != "" && IsSpace(s[|s| - 1]) {
      var n := |s| - 1;
      var rest := TrimRightSplits(s[..n]);
      q := rest + [s[n]];
      assert s == s[..n] + [s[n]];
    } else {
      q := "";
    }
  }

  /** Every text is what trimming leaves of it with white space around. */
  lemma TrimSplits(s: string) returns (p: string, q: string)
    ensures Spaces(p) && Spaces(q) && s == p + Trim(s) + q && Trimmed(Trim(s))
  {
    p := TrimLeftSplits(s);
    q := TrimRightSplits(TrimLeft(s));
    assert p + (Trim(s) + q) == p + Trim(s) + q;
  }

  /** Trimming the right end of a string with a solid character in it. */
  lemma {:induction false} TrimRightKeeps(s: string, t: string)
    requires s != "" && !IsSpace(s[|s| - 1])
    ensures TrimRight(s + t) == s + TrimRight(t)
    decreases |t|
  {
    if t == "" {
      assert s + t == s;
    } else if IsSpace(t[|t| - 1]) {
      assert (s + t)[..|s + t| - 1] == s + t[..|t| - 1];
      TrimRightKeeps(s, t[..|t| - 1]);
    }
  }

  lemma {:induction false} TrimRightShortens(s: string)
    ensures |TrimRight(s)| <= |s| && TrimRight(s) == s[..|TrimRight(s)|]
    ensures TrimRight(s) == s <==> s == "" || !IsSpace(s[|s| - 1])
  {
    if s != "" && IsSpace(s[|s| - 1]) {
      TrimRightShortens(s[..|s| - 1]);
    }
  }

  /** The first place of `c`, or the length. */
  function IndexOf(s: string, c: char): (i: nat)
    ensures i <= |s|
    ensures i < |s| ==> s[i] == c
    ensures forall j :: 0 <= j < i ==> s[j] != c
  {
    if s == "" || s[0] == c then 0 else 1 + IndexOf(s[1..], c)
  }

  /** The first place of either character, or the length. */
  function IndexEither(s: string, c: char, d: char): (i: nat)
    ensures i <= |s|
    ensures i < |s| ==> s[i] == c || s[i] == d
    ensures forall j :: 0 <= j < i ==> s[j] != c && s[j] != d
  {
    if s == "" || s[0] == c || s[0] == d then 0 else 1 + IndexEither(s[1..], c, d)
  }

  function LowerChar(c: char): char {
    if 'A' <= c <= 'Z' then c - 'A' + 'a' else c
  }

  function ToLower(s: string): (t: string)
    ensures |t| == |s| && forall i :: 0 <= i < |s| ==> t[i] == LowerChar(s[i])
  {
    seq(|s|, i requires 0 <= i < |s| => LowerChar(s[i]))
  }

  function UpperChar(c: char): char {
    if 'a' <= c <= 'z' then c - 'a' + 'A' else c
  }

  function ToUpper(s: string): (t: string)
    ensures |t| == |s| && forall i :: 0 <= i < |s| ==> t[i] == UpperChar(s[i])
  {
    seq(|s|, i requires 0 <= i < |s| => UpperChar(s[i]))
  }

  /** The two cases, letter by letter; nothing else changes. */
  lemma CaseMeans(i: nat, c: char)
    ensures i < 26 ==> LowerChar('A' + i as char) == 'a' + i as char
    ensures i < 26 ==> UpperChar('a' + i as char) == 'A' + i as char
    ensures !('A' <= c <= 'Z') ==> LowerChar(c) == c
    ensures !('a' <= c <= 'z') ==> UpperChar(c) == c
  {
  }

  // ----- Lines -----

  function DropCR(s: string): string {
    if s != "" && s[|s| - 1] == '\r' then s[..|s| - 1] else s
  }

  /** A text as a line scanner gives it: no line ends, and no empty last line. */
  function Lines(s: string): seq<string>
    decreases |s|
  {
    if s == "" then []
    else
      var i := IndexOf(s, '\n');
      [DropCR(s[..i])] + (if i == |s| then [] else Lines(s[i + 1..]))
  }

  function Unlines(ls: seq<string>): string {
    if ls == [] then "" else ls[0] + "\n" + Unlines(ls[1..])
  }

  /** Scanning a text whose first line is known. */
  lemma LinesFirst(l: string, rest: string)
    requires '\n' !in l
    ensures Lines(l + "\n" + rest) == [DropCR(l)] + Lines(rest)
  {
    var s := l + "\n" + rest;
    var i := IndexOf(s, '\n');
    assert s[|l|] == '\n';
    forall j | 0 <= j < |l| ensures s[j] != '\n' {
      assert s[j] == l[j];
    }
    assert s[..i] == l && s[i + 1..] == rest;
  }

  lemma {:induction false} LinesUnlines(ls: seq<string>)
    requires forall i :: 0 <= i < |ls| ==> '\n' !in ls[i] && DropCR(ls[i]) == ls[i]
    ensures Lines(Unlines(ls)) == ls
  {
    if ls != [] {
      LinesUnlines(ls[1..]);
      LinesFirst(ls[0], Unlines(ls[1..]));
    }
  }

  function UnlinesCRLF(ls: seq<string>): string {
    if ls == [] then "" else ls[0] + "\r\n" + UnlinesCRLF(ls[1..])
  }

  /** Lines may as well end in a carriage return and a line feed. */
  lemma {:induction false} LinesUnlinesCRLF(ls: seq<string>)
    requires forall i :: 0 <= i < |ls| ==> '\n' !in ls[i]
    ensures Lines(UnlinesCRLF(ls)) == ls
  {
    if ls != [] {
      LinesUnlinesCRLF(ls[1..]);
      FirstCRLF(ls[0], UnlinesCRLF(ls[1..]));
      assert ls == [ls[0]] + ls[1..];
    }
  }

  lemma FirstCRLF(l: string, rest: string)
    requires '\n' !in l
    ensures Lines(l + "\r\n" + rest) == [l] + Lines(rest)
  {
    var line := l + ['\r'];
    LinesFirst(line, rest);
    assert line + "\n" + rest == l + "\r\n" + rest;
    assert line[..|line| - 1] == l;
  }

  /** The last line needs no line end. */
  lemma LinesLast(l: string)
    requires l != "" && '\n' !in l && l[|l| - 1] != '\r'
    ensures Lines(l) == [l]
  {
    assert IndexOf(l, '\n') == |l| && l[..|l|] == l;
  }
}
