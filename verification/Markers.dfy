/** Marker expressions (markers.go): lexer, recursive-descent parser, evaluator.
    Text is bytes, one character each, classified as Latin-1. */
module Markers {
  import opened Results

  datatype Node = Ident(name: string) | Not(inner: Node) | And(lhs: Node, rhs: Node) | Or(lhs: Node, rhs: Node)

  datatype Error =
    | BadCharacter | NoTokens | UnexpectedEnd | MissingParen | UnexpectedParen | UnexpectedOperator | Trailing

  // ----- Characters -----

  predicate IsSpace(c: char) {
    ('\t' <= c <= '\r') || c == ' ' || c == '\U{85}' || c == '\U{a0}'
  }

  predicate IsLetter(c: char) {
    || 'a' <= c <= 'z' || 'A' <= c <= 'Z' || c == '\U{aa}' || c == '\U{b5}' || c == '\U{ba}'
    || ('\U{c0}' <= c <= '\U{ff}' && c != '\U{d7}' && c != '\U{f7}')
  }

  predicate IsIdentRune(c: char) {
    c == '_' || IsLetter(c) || '0' <= c <= '9'
  }

  predicate IsParen(c: char) {
    c == '(' || c == ')'
  }

  // ----- Lexer -----

  /** Length of the identifier a string starts with. */
  function Run(s: string): (n: nat)
    ensures n <= |s|
  {
    if s == "" || !IsIdentRune(s[0]) then 0 else 1 + Run(s[1..])
  }

  function Tokens(s: string): Result<seq<string>, Error>
    decreases |s|
  {
    if s == "" then Ok([])
    else if IsSpace(s[0]) then Tokens(s[1..])
    else if IsParen(s[0]) then Prepend([s[0]], Tokens(s[1..]))
    else if IsIdentRune(s[0]) then Prepend(s[..Run(s)], Tokens(s[Run(s)..]))
    else Err(BadCharacter)
  }

  function Prepend(t: string, r: Result<seq<string>, Error>): Result<seq<string>, Error> {
    match r
    case Ok(ts) => Ok([t] + ts)
    case Err(e) => Err(e)
  }

  function Lex(s: string): Result<seq<string>, Error> {
    match Tokens(s)
    case Ok(ts) => if ts == [] then Err(NoTokens) else Ok(ts)
    case Err(e) => Err(e)
  }

  function Append(done: seq<string>, r: Result<seq<string>, Error>): Result<seq<string>, Error> {
    match r
    case Ok(ts) => Ok(done + ts)
    case Err(e) => Err(e)
  }

  /** How far the name that begins at `i` reaches. */
  method ScanName(s: string, i: nat) returns (j: nat)
    requires i < |s| && IsIdentRune(s[i])
    ensures i < j <= |s| && j - i == Run(s[i..])
    ensures s[i..][..j - i] == s[i..j] && s[i..][j - i..] == s[j..]
  {
    j := i;
    while j < |s| && IsIdentRune(s[j])
      invariant i <= j <= |s|
      invariant Run(s[i..]) == j - i + Run(s[j..])
    {
      assert s[j..][1..] == s[j + 1..];
      j := j + 1;
    }
  }

  method LexMarkers(s: string) returns (r: Result<seq<string>, Error>)
    ensures r == Lex(s)
  {
    var toks: seq<string> := [];
    var i := 0;
    assert s[0..] == s && (Tokens(s).Ok? ==> [] + Tokens(s).value == Tokens(s).value);
    while i < |s|
      invariant 0 <= i <= |s|
      invariant Tokens(s) == Append(toks, Tokens(s[i..]))
    {
      var c := s[i];
      if IsSpace(c) {
        assert s[i..][1..] == s[i + 1..];
        i := i + 1;
      } else if c == '(' || c == ')' {
        assert s[i..][1..] == s[i + 1..];
        ghost var was := toks;
        toks := toks + [[c]];
        AppendPrepend(was, [c], Tokens(s[i + 1..]));
        i := i + 1;
      } else if IsIdentRune(c) {
        var j := ScanName(s, i);
        AppendPrepend(toks, s[i..j], Tokens(s[j..]));
        toks := toks + [s[i..j]];
        i := j;
      } else {
        return Err(BadCharacter);
      }
    }
    assert s[i..] == "" && toks + [] == toks;
    if |toks| == 0 {
      return Err(NoTokens);
    }
    return Ok(toks);
  }

  lemma AppendPrepend(done: seq<string>, t: string, r: Result<seq<string>, Error>)
    ensures Append(done, Prepend(t, r)) == Append(done + [t], r)
  {
    if r.Ok? {
      assert done + ([t] + r.value) == done + [t] + r.value;
    }
  }

  predicate IsWord(t: string) {
    t != "" && forall i :: 0 <= i < |t| ==> IsIdentRune(t[i])
  }

  predicate IsToken(t: string) {
    t == "(" || t == ")" || IsWord(t)
  }

  function Flat(ts: seq<string>): string {
    if ts == [] then "" else ts[0] + Flat(ts[1..])
  }

  function Squeezed(s: string): string {
    if s == "" then "" else (if IsSpace(s[0]) then "" else [s[0]]) + Squeezed(s[1..])
  }

  lemma {:induction false} RunIsWord(s: string)
    ensures forall i :: 0 <= i < Run(s) ==> IsIdentRune(s[i])
    ensures Squeezed(s) == s[..Run(s)] + Squeezed(s[Run(s)..])
  {
    if s != "" && IsIdentRune(s[0]) {
      RunIsWord(s[1..]);
      assert s[1..][Run(s[1..])..] == s[Run(s)..];
      assert s[..Run(s)] == [s[0]] + s[1..][..Run(s[1..])];
    } else {
      assert s[Run(s)..] == s;
    }
  }

  predicate Lexable(s: string) {
    forall i :: 0 <= i < |s| ==> IsSpace(s[i]) || IsParen(s[i]) || IsIdentRune(s[i])
  }

  lemma LexableSplit(s: string, n: nat)
    requires n <= |s|
    ensures Lexable(s) <==> Lexable(s[..n]) && Lexable(s[n..])
  {
    if Lexable(s[..n]) && Lexable(s[n..]) {
      forall i | 0 <= i < |s| ensures IsSpace(s[i]) || IsParen(s[i]) || IsIdentRune(s[i]) {
        assert s[i] == if i < n then s[..n][i] else s[n..][i - n];
      }
    }
  }

  /** A string lexes exactly when every character is a space, a parenthesis or
      part of a name. The tokens are non-empty, and spell what is not space. */
  lemma {:induction false} TokensMean(s: string)
    ensures Tokens(s).Ok? <==> Lexable(s)
    ensures Tokens(s).Ok? ==> Flat(Tokens(s).value) == Squeezed(s)
    ensures Tokens(s).Ok? ==> forall k :: 0 <= k < |Tokens(s).value| ==> IsToken(Tokens(s).value[k])
    decreases |s|
  {
    if s != "" {
      if IsSpace(s[0]) || IsParen(s[0]) {
        TokensMean(s[1..]);
        LexableSplit(s, 1);
      } else if IsIdentRune(s[0]) {
        var n := Run(s);
        RunIsWord(s);
        TokensMean(s[n..]);
        LexableSplit(s, n);
        assert IsWord(s[..n]) && Lexable(s[..n]);
      }
    }
  }

  // ----- Grammar -----

  predicate IsKeyword(t: string) {
    t == "and" || t == "or" || t == "not"
  }

  predicate IsName(t: string) {
    t != "" && t != "(" && t != ")" && !IsKeyword(t)
  }

  /** or := and ('or' and)*, with the tree it stands for: tokens a to b spell `n`. */
  ghost predicate DerivesOr(ts: seq<string>, a: nat, b: nat, n: Node)
    requires a <= b <= |ts|
    decreases b - a, 3
  {
    || DerivesAnd(ts, a, b, n)
    || (n.Or? && exists k :: a < k < b && ts[k] == "or"
                             && DerivesOr(ts, a, k, n.lhs) && DerivesAnd(ts, k + 1, b, n.rhs))
  }

  /** and := not ('and' not)* */
  ghost predicate DerivesAnd(ts: seq<string>, a: nat, b: nat, n: Node)
    requires a <= b <= |ts|
    decreases b - a, 2
  {
    || DerivesNot(ts, a, b, n)
    || (n.And? && exists k :: a < k < b && ts[k] == "and"
                              && DerivesAnd(ts, a, k, n.lhs) && DerivesNot(ts, k + 1, b, n.rhs))
  }

  /** not := 'not' not | atom */
  ghost predicate DerivesNot(ts: seq<string>, a: nat, b: nat, n: Node)
    requires a <= b <= |ts|
    decreases b - a, 1
  {
    || (n.Not? && a < b && ts[a] == "not" && DerivesNot(ts, a + 1, b, n.inner))
    || DerivesAtom(ts, a, b, n)
  }

  /** atom := '(' expr ')' | IDENT */
  ghost predicate DerivesAtom(ts: seq<string>, a: nat, b: nat, n: Node)
    requires a <= b <= |ts|
    decreases b - a, 0
  {
    || (a + 1 == b && IsName(ts[a]) && n == Ident(ts[a]))
    || (a + 2 <= b && ts[a] == "(" && ts[b - 1] == ")" && DerivesOr(ts, a + 1, b - 1, n))
  }

  // ----- Parser, as a function of the position -----

  datatype Parsed = Good(node: Node, pos: nat) | Bad(error: Error)

  function Peek(ts: seq<string>, pos: nat): string {
    if pos < |ts| then ts[pos] else ""
  }

  function ParseOr(ts: seq<string>, pos: nat): (r: Parsed)
    requires pos <= |ts|
    ensures r.Good? ==> pos < r.pos <= |ts|
    decreases |ts| - pos, 4
  {
    match ParseAnd(ts, pos)
    case Bad(e) => Bad(e)
    case Good(lhs, p) => OrTail(ts, p, lhs)
  }

  function OrTail(ts: seq<string>, pos: nat, lhs: Node): (r: Parsed)
    requires pos <= |ts|
    ensures r.Good? ==> pos <= r.pos <= |ts|
    decreases |ts| - pos, 3
  {
    if Peek(ts, pos) != "or" then Good(lhs, pos)
    else
      match ParseAnd(ts, pos + 1)
      case Bad(e) => Bad(e)
      case Good(rhs, p) => OrTail(ts, p, Or(lhs, rhs))
  }

  function ParseAnd(ts: seq<string>, pos: nat): (r: Parsed)
    requires pos <= |ts|
    ensures r.Good? ==> pos < r.pos <= |ts|
    decreases |ts| - pos, 2
  {
    match ParseNot(ts, pos)
    case Bad(e) => Bad(e)
    case Good(lhs, p) => AndTail(ts, p, lhs)
  }

  function AndTail(ts: seq<string>, pos: nat, lhs: Node): (r: Parsed)
    requires pos <= |ts|
    ensures r.Good? ==> pos <= r.pos <= |ts|
    decreases |ts| - pos, 2
  {
    if Peek(ts, pos) != "and" then Good(lhs, pos)
    else
      match ParseNot(ts, pos + 1)
      case Bad(e) => Bad(e)
      case Good(rhs, p) => AndTail(ts, p, And(lhs, rhs))
  }

  function ParseNot(ts: seq<string>, pos: nat): (r: Parsed)
    requires pos <= |ts|
    ensures r.Good? ==> pos < r.pos <= |ts|
    decreases |ts| - pos, 1
  {
    if Peek(ts, pos) == "not" then
      match ParseNot(ts, pos + 1)
      case Bad(e) => Bad(e)
      case Good(inner, p) => Good(Not(inner), p)
    else ParseAtom(ts, pos)
  }

  function ParseAtom(ts: seq<string>, pos: nat): (r: Parsed)
    requires pos <= |ts|
    ensures r.Good? ==> pos < r.pos <= |ts|
    decreases |ts| - pos, 0
  {
    var tok := Peek(ts, pos);
    if tok == "" then Bad(UnexpectedEnd)
    else if tok == "(" then
      match ParseOr(ts, pos + 1)
      case Bad(e) => Bad(e)
      case Good(inner, p) => if Peek(ts, p) != ")" then Bad(MissingParen) else Good(inner, p + 1)
    else if tok == ")" then Bad(UnexpectedParen)
    else if tok == "and" || tok == "or" then Bad(UnexpectedOperator)
    else Good(Ident(tok), pos + 1)
  }

  // ----- Soundness -----

  lemma {:induction false} SoundOr(ts: seq<string>, a: nat)
    requires a <= |ts| && ParseOr(ts, a).Good?
    ensures DerivesOr(ts, a, ParseOr(ts, a).pos, ParseOr(ts, a).node)
    decreases |ts| - a, 4
  {
    var p := ParseAnd(ts, a);
    SoundAnd(ts, a);
    SoundOrTail(ts, a, p.pos, p.node);
  }

  lemma {:induction false} SoundOrTail(ts: seq<string>, a: nat, k: nat, lhs: Node)
    requires a < k <= |ts| && DerivesOr(ts, a, k, lhs) && OrTail(ts, k, lhs).Good?
    ensures DerivesOr(ts, a, OrTail(ts, k, lhs).pos, OrTail(ts, k, lhs).node)
    decreases |ts| - k, 3
  {
    if Peek(ts, k) == "or" {
      var p := ParseAnd(ts, k + 1);
      SoundAnd(ts, k + 1);
      SoundOrTail(ts, a, p.pos, Or(lhs, p.node));
    }
  }

  lemma {:induction false} SoundAnd(ts: seq<string>, a: nat)
    requires a <= |ts| && ParseAnd(ts, a).Good?
    ensures DerivesAnd(ts, a, ParseAnd(ts, a).pos, ParseAnd(ts, a).node)
    decreases |ts| - a, 2
  {
    var p := ParseNot(ts, a);
    SoundNot(ts, a);
    SoundAndTail(ts, a, p.pos, p.node);
  }

  lemma {:induction false} SoundAndTail(ts: seq<string>, a: nat, k: nat, lhs: Node)
    requires a < k <= |ts| && DerivesAnd(ts, a, k, lhs) && AndTail(ts, k, lhs).Good?
    ensures DerivesAnd(ts, a, AndTail(ts, k, lhs).pos, AndTail(ts, k, lhs).node)
    decreases |ts| - k, 2
  {
    if Peek(ts, k) == "and" {
      var p := ParseNot(ts, k + 1);
      SoundNot(ts, k + 1);
      SoundAndTail(ts, a, p.pos, And(lhs, p.node));
    }
  }

  lemma {:induction false} SoundNot(ts: seq<string>, a: nat)
    requires a <= |ts| && ParseNot(ts, a).Good?
    ensures DerivesNot(ts, a, ParseNot(ts, a).pos, ParseNot(ts, a).node)
    decreases |ts| - a, 1
  {
    if Peek(ts, a) == "not" {
      SoundNot(ts, a + 1);
    } else if Peek(ts, a) == "(" {
      SoundOr(ts, a + 1);
    }
  }

  // ----- Completeness -----

  /** Parsing text derived as an or-expression gets to its end with its tree in hand. */
  lemma {:induction false} CompleteOr(ts: seq<string>, a: nat, b: nat, n: Node)
    requires a <= b <= |ts| && DerivesOr(ts, a, b, n) && Peek(ts, b) != "and"
    ensures ParseOr(ts, a) == OrTail(ts, b, n)
    decreases b - a, 3
  {
    if DerivesAnd(ts, a, b, n) {
      CompleteAnd(ts, a, b, n);
    } else {
      var k :| a < k < b && ts[k] == "or" && DerivesOr(ts, a, k, n.lhs) && DerivesAnd(ts, k + 1, b, n.rhs);
      CompleteOr(ts, a, k, n.lhs);
      CompleteAnd(ts, k + 1, b, n.rhs);
    }
  }

  lemma {:induction false} CompleteAnd(ts: seq<string>, a: nat, b: nat, n: Node)
    requires a <= b <= |ts| && DerivesAnd(ts, a, b, n)
    ensures ParseAnd(ts, a) == AndTail(ts, b, n)
    decreases b - a, 2
  {
    if DerivesNot(ts, a, b, n) {
      CompleteNot(ts, a, b, n);
    } else {
      var k :| a < k < b && ts[k] == "and" && DerivesAnd(ts, a, k, n.lhs) && DerivesNot(ts, k + 1, b, n.rhs);
      CompleteAnd(ts, a, k, n.lhs);
      CompleteNot(ts, k + 1, b, n.rhs);
    }
  }

  lemma {:induction false} CompleteNot(ts: seq<string>, a: nat, b: nat, n: Node)
    requires a <= b <= |ts| && DerivesNot(ts, a, b, n)
    ensures ParseNot(ts, a) == Good(n, b)
    decreases b - a, 1
  {
    if DerivesAtom(ts, a, b, n) {
      if !(a + 1 == b && IsName(ts[a]) && n == Ident(ts[a])) {
        CompleteOr(ts, a + 1, b - 1, n);
      }
    } else {
      CompleteNot(ts, a + 1, b, n.inner);
    }
  }

  // ----- Whole expressions -----

  /** Nothing but ASCII white space. */
  predicate Blank(s: string) {
    forall i :: 0 <= i < |s| ==> ('\t' <= s[i] <= '\r') || s[i] == ' '
  }

  datatype MarkerExpr = Everything | Selecting(node: Node)

  function Compile(s: string): Result<MarkerExpr, Error> {
    if Blank(s) then Ok(Everything)
    else
      match Lex(s)
      case Err(e) => Err(e)
      case Ok(ts) =>
        match ParseOr(ts, 0)
        case Bad(e) => Err(e)
        case Good(n, p) => if p != |ts| then Err(Trailing) else Ok(Selecting(n))
  }

  /** An expression compiles to a tree exactly when its tokens derive that tree
      from the grammar. */
  lemma CompileMeans(s: string, n: Node)
    requires !Blank(s)
    ensures Compile(s) == Ok(Selecting(n)) <==> Lex(s).Ok? && DerivesOr(Lex(s).value, 0, |Lex(s).value|, n)
  {
    if Lex(s).Ok? {
      var ts := Lex(s).value;
      if ParseOr(ts, 0).Good? {
        SoundOr(ts, 0);
      }
      if DerivesOr(ts, 0, |ts|, n) {
        CompleteOr(ts, 0, |ts|, n);
      }
    }
  }

  /** The grammar is unambiguous, with both operators grouping to the left. */
  lemma Unambiguous(ts: seq<string>, m: Node, n: Node)
    requires DerivesOr(ts, 0, |ts|, m) && DerivesOr(ts, 0, |ts|, n)
    ensures m == n
  {
    CompleteOr(ts, 0, |ts|, m);
    CompleteOr(ts, 0, |ts|, n);
  }

  // ----- The parser itself -----

  class MarkerParser {
    const toks: seq<string>
    var pos: nat

    ghost predicate Valid()
      reads this
    {
      pos <= |toks|
    }

    constructor (toks: seq<string>)
      ensures Valid() && this.toks == toks && pos == 0
    {
      this.toks := toks;
      pos := 0;
    }

    /** The method's answer and the position it leaves, against the function's. */
    ghost predicate Agrees(r: Result<Node, Error>, p: Parsed)
      reads this
    {
      match p
      case Good(n, q) => r == Ok(n) && pos == q
      case Bad(e) => r == Err(e)
    }

    function PeekTok(): string
      reads this
    {
      Peek(toks, pos)
    }

    method Or() returns (r: Result<Node, Error>)
      requires Valid()
      modifies this
      ensures Valid() && Agrees(r, ParseOr(toks, old(pos))) && pos >= old(pos)
      decreases |toks| - pos, 3
    {
      r := And();
      while r.Ok? && PeekTok() == "or"
        invariant Valid() && pos >= old(pos)
        invariant r.Ok? ==> OrTail(toks, pos, r.value) == ParseOr(toks, old(pos))
        invariant r.Err? ==> ParseOr(toks, old(pos)) == Bad(r.error)
        decreases if r.Ok? then 1 + |toks| - pos else 0
      {
        var lhs := r.value;
        pos := pos + 1;
        r := And();
        if r.Ok? {
          r := Ok(Node.Or(lhs, r.value));
        }
      }
    }

    method And() returns (r: Result<Node, Error>)
      requires Valid()
      modifies this
      ensures Valid() && Agrees(r, ParseAnd(toks, old(pos))) && pos >= old(pos)
      decreases |toks| - pos, 2
    {
      r := Not();
      while r.Ok? && PeekTok() == "and"
        invariant Valid() && pos >= old(pos)
        invariant r.Ok? ==> AndTail(toks, pos, r.value) == ParseAnd(toks, old(pos))
        invariant r.Err? ==> ParseAnd(toks, old(pos)) == Bad(r.error)
        decreases if r.Ok? then 1 + |toks| - pos else 0
      {
        var lhs := r.value;
        pos := pos + 1;
        r := Not();
        if r.Ok? {
          r := Ok(Node.And(lhs, r.value));
        }
      }
    }

    method Not() returns (r: Result<Node, Error>)
      requires Valid()
      modifies this
      ensures Valid() && Agrees(r, ParseNot(toks, old(pos))) && pos >= old(pos)
      decreases |toks| - pos, 1
    {
      if PeekTok() == "not" {
        pos := pos + 1;
        r := Not();
        if r.Ok? {
          r := Ok(Node.Not(r.value));
        }
      } else {
        r := Atom();
      }
    }

    method Atom() returns (r: Result<Node, Error>)
      requires Valid()
      modifies this
      ensures Valid() && Agrees(r, ParseAtom(toks, old(pos))) && pos >= old(pos)
      decreases |toks| - pos, 0
    {
      var tok := PeekTok();
      if tok == "" {
        r := Err(UnexpectedEnd);
      } else if tok == "(" {
        pos := pos + 1;
        r := Or();
        if r.Ok? {
          if PeekTok() != ")" {
            return Err(MissingParen);
          }
          pos := pos + 1;
        }
      } else if tok == ")" {
        r := Err(UnexpectedParen);
      } else if tok == "and" || tok == "or" {
        r := Err(UnexpectedOperator);
      } else {
        pos := pos + 1;
        r := Ok(Ident(tok));
      }
    }
  }

  method ParseMarkerExpr(s: string) returns (r: Result<MarkerExpr, Error>)
    ensures r == Compile(s)
  {
    if Blank(s) {
      return Ok(Everything);
    }
    var toks := LexMarkers(s);
    if toks.Err? {
      return Err(toks.error);
    }
    var p := new MarkerParser(toks.value);
    var n := p.Or();
    if n.Err? {
      return Err(n.error);
    }
    if p.pos != |p.toks| {
      return Err(Trailing);
    }
    return Ok(Selecting(n.value));
  }

  // ----- Printing -----

  /** How loosely a node binds: 0 for a name, 3 for `or`. */
  function Looseness(n: Node): nat {
    match n
    case Ident(_) => 0
    case Not(_) => 1
    case And(_, _) => 2
    case Or(_, _) => 3
  }

  /** The tokens of a tree where at most `level` may stand bare: parentheses go
      only around what binds more loosely, the right operand of an equal
      operator included. */
  function Print(n: Node, level: nat): seq<string>
    decreases n, if Looseness(n) > level then 1 else 0
  {
    if Looseness(n) > level then ["("] + Print(n, 3) + [")"]
    else
      match n
      case Ident(name) => [name]
      case Not(inner) => ["not"] + Print(inner, 1)
      case And(lhs, rhs) => Print(lhs, 2) + ["and"] + Print(rhs, 1)
      case Or(lhs, rhs) => Print(lhs, 3) + ["or"] + Print(rhs, 2)
  }

  /** Tokens separated by single spaces. */
  function Spell(ts: seq<string>): string {
    if ts == [] then ""
    else if |ts| == 1 then ts[0]
    else ts[0] + " " + Spell(ts[1..])
  }

  /** A tree over names that lex as one token and are not operators. */
  predicate Plain(n: Node) {
    match n
    case Ident(name) => IsWord(name) && !IsKeyword(name)
    case Not(inner) => Plain(inner)
    case And(lhs, rhs) => Plain(lhs) && Plain(rhs)
    case Or(lhs, rhs) => Plain(lhs) && Plain(rhs)
  }

  ghost predicate DerivesAt(level: nat, ts: seq<string>, a: nat, b: nat, n: Node)
    requires a <= b <= |ts|
  {
    if level == 0 then DerivesAtom(ts, a, b, n)
    else if level == 1 then DerivesNot(ts, a, b, n)
    else if level == 2 then DerivesAnd(ts, a, b, n)
    else DerivesOr(ts, a, b, n)
  }

  lemma Loosen(level: nat, more: nat, ts: seq<string>, a: nat, b: nat, n: Node)
    requires a <= b <= |ts| && level <= more && DerivesAt(level, ts, a, b, n)
    ensures DerivesAt(more, ts, a, b, n)
  {
  }

  ghost predicate Stands(part: seq<string>, ts: seq<string>, a: nat) {
    a + |part| <= |ts| && ts[a..a + |part|] == part
  }

  lemma StandsApart(x: seq<string>, mid: string, y: seq<string>, ts: seq<string>, a: nat)
    requires Stands(x + [mid] + y, ts, a)
    ensures Stands(x, ts, a) && ts[a + |x|] == mid && Stands(y, ts, a + |x| + 1)
  {
    var all := x + [mid] + y;
    assert all[..|x|] == x && all[|x|] == mid && all[|x| + 1..] == y;
    assert ts[a..a + |x|] == ts[a..a + |all|][..|x|];
    assert ts[a + |x|] == ts[a..a + |all|][|x|];
    assert ts[a + |x| + 1..a + |all|] == ts[a..a + |all|][|x| + 1..];
  }

  lemma AtomParens(ts: seq<string>, a: nat, inner: seq<string>, n: Node)
    requires Stands(["("] + inner + [")"], ts, a)
    requires Stands(inner, ts, a + 1) ==> DerivesOr(ts, a + 1, a + 1 + |inner|, n)
    ensures DerivesAtom(ts, a, a + |inner| + 2, n)
  {
    assert ["("] + inner + [")"] == [] + ["("] + (inner + [")"]);
    StandsApart([], "(", inner + [")"], ts, a);
    assert inner + [")"] == inner + [")"] + [];
    StandsApart(inner, ")", [], ts, a + 1);
  }

  lemma NotPrefix(ts: seq<string>, a: nat, inner: seq<string>)
    requires Stands(["not"] + inner, ts, a)
    ensures a < |ts| && ts[a] == "not" && Stands(inner, ts, a + 1)
  {
    assert ["not"] + inner == [] + ["not"] + inner;
    StandsApart([], "not", inner, ts, a);
  }

  /** Wherever a printed tree stands among tokens, the grammar reads it back. */
  lemma {:induction false} PrintDerives(n: Node, level: nat, ts: seq<string>, a: nat)
    requires Plain(n) && level <= 3 && Stands(Print(n, level), ts, a)
    ensures DerivesAt(level, ts, a, a + |Print(n, level)|, n)
    decreases n, 1, if Looseness(n) > level then 1 else 0
  {
    var b := a + |Print(n, level)|;
    if Looseness(n) > level {
      if Stands(Print(n, 3), ts, a + 1) {
        PrintDerives(n, 3, ts, a + 1);
      }
      AtomParens(ts, a, Print(n, 3), n);
      Loosen(0, level, ts, a, b, n);
    } else {
      PrintBare(n, level, ts, a);
      Loosen(Looseness(n), level, ts, a, b, n);
    }
  }

  lemma NameDerives(name: string, ts: seq<string>, a: nat)
    requires IsWord(name) && !IsKeyword(name) && Stands([name], ts, a)
    ensures DerivesAtom(ts, a, a + 1, Ident(name))
  {
    assert ts[a..a + 1][0] == name && IsIdentRune(name[0]);
  }

  lemma {:induction false} PrintBare(n: Node, level: nat, ts: seq<string>, a: nat)
    requires Plain(n) && Looseness(n) <= level <= 3 && Stands(Print(n, level), ts, a)
    ensures DerivesAt(Looseness(n), ts, a, a + |Print(n, level)|, n)
    decreases n, 0, 2
  {
    match n
    case Ident(name) => NameDerives(name, ts, a);
    case Not(inner) =>
      NotPrefix(ts, a, Print(inner, 1));
      PrintDerives(inner, 1, ts, a + 1);
    case And(lhs, rhs) => PrintAnd(n, ts, a);
    case Or(lhs, rhs) => PrintOr(n, ts, a);
  }

  lemma {:induction false} PrintAnd(n: Node, ts: seq<string>, a: nat)
    requires n.And? && Plain(n) && Stands(Print(n, 2), ts, a)
    ensures DerivesAnd(ts, a, a + |Print(n, 2)|, n)
    decreases n, 0, 1
  {
    PrintPair(n, n.lhs, 2, "and", n.rhs, 1, ts, a);
    JoinAnd(n.lhs, n.rhs, ts, a, a + |Print(n.lhs, 2)|, a + |Print(n, 2)|);
  }

  lemma {:induction false} PrintOr(n: Node, ts: seq<string>, a: nat)
    requires n.Or? && Plain(n) && Stands(Print(n, 3), ts, a)
    ensures DerivesOr(ts, a, a + |Print(n, 3)|, n)
    decreases n, 0, 1
  {
    PrintPair(n, n.lhs, 3, "or", n.rhs, 2, ts, a);
    JoinOr(n.lhs, n.rhs, ts, a, a + |Print(n.lhs, 3)|, a + |Print(n, 3)|);
  }

  lemma JoinAnd(lhs: Node, rhs: Node, ts: seq<string>, a: nat, k: nat, b: nat)
    requires a < k < b <= |ts| && ts[k] == "and" && DerivesAnd(ts, a, k, lhs) && DerivesNot(ts, k + 1, b, rhs)
    ensures DerivesAnd(ts, a, b, And(lhs, rhs))
  {
  }

  lemma JoinOr(lhs: Node, rhs: Node, ts: seq<string>, a: nat, k: nat, b: nat)
    requires a < k < b <= |ts| && ts[k] == "or" && DerivesOr(ts, a, k, lhs) && DerivesAnd(ts, k + 1, b, rhs)
    ensures DerivesOr(ts, a, b, Or(lhs, rhs))
  {
  }

  /** Both operands of an operator stand where the grammar looks for them. */
  lemma {:induction false} PrintPair(n: Node, lhs: Node, l: nat, op: string, rhs: Node, r: nat, ts: seq<string>, a: nat)
    requires lhs < n && rhs < n && Plain(lhs) && Plain(rhs) && l <= 3 && r <= 3
    requires Stands(Print(lhs, l) + [op] + Print(rhs, r), ts, a)
    ensures var k := a + |Print(lhs, l)|; var b := k + 1 + |Print(rhs, r)|;
            && a < k < b <= |ts| && ts[k] == op
            && DerivesAt(l, ts, a, k, lhs) && DerivesAt(r, ts, k + 1, b, rhs)
    decreases n, 0, 0
  {
    StandsApart(Print(lhs, l), op, Print(rhs, r), ts, a);
    PrintDerives(lhs, l, ts, a);
    PrintDerives(rhs, r, ts, a + |Print(lhs, l)| + 1);
    PrintSome(lhs, l);
    PrintSome(rhs, r);
  }

  /** A printed tree is tokens, at least one. */
  lemma {:induction false} PrintSome(n: Node, level: nat)
    requires Plain(n)
    ensures |Print(n, level)| > 0
    ensures forall k :: 0 <= k < |Print(n, level)| ==> IsToken(Print(n, level)[k])
    decreases n, if Looseness(n) > level then 1 else 0
  {
    if Looseness(n) > level {
      PrintSome(n, 3);
    } else {
      match n
      case Ident(_) =>
      case Not(inner) =>
        PrintSome(inner, 1);
        assert IsWord("not");
      case And(lhs, rhs) =>
        PrintSome(lhs, 2);
        PrintSome(rhs, 1);
        assert IsWord("and");
      case Or(lhs, rhs) =>
        PrintSome(lhs, 3);
        PrintSome(rhs, 2);
        assert IsWord("or");
    }
  }

  /** A word at the front of a string is lexed as itself if no name character follows. */
  lemma {:induction false} RunWord(t: string, rest: string)
    requires forall i :: 0 <= i < |t| ==> IsIdentRune(t[i])
    requires rest == "" || !IsIdentRune(rest[0])
    ensures Run(t + rest) == |t|
  {
    if t == "" {
      assert t + rest == rest;
    } else {
      assert (t + rest)[1..] == t[1..] + rest;
      RunWord(t[1..], rest);
    }
  }

  lemma TokenFirst(t: string, rest: string)
    requires IsToken(t) && (rest == "" || IsSpace(rest[0]))
    ensures Tokens(t + rest) == Prepend(t, Tokens(rest))
  {
    if IsWord(t) {
      RunWord(t, rest);
      assert (t + rest)[..|t|] == t && (t + rest)[|t|..] == rest;
      assert !IsSpace(t[0]) && !IsParen(t[0]);
    } else {
      assert (t + rest)[1..] == rest && t == [t[0]];
    }
  }

  /** Lexing undoes spelling. */
  lemma {:induction false} LexSpell(ts: seq<string>)
    requires forall k :: 0 <= k < |ts| ==> IsToken(ts[k])
    ensures Tokens(Spell(ts)) == Ok(ts)
  {
    if |ts| == 1 {
      TokenFirst(ts[0], "");
      assert ts[0] + "" == ts[0] && ts == [ts[0]] + [];
    } else if ts != [] {
      var rest := " " + Spell(ts[1..]);
      LexSpell(ts[1..]);
      TokenFirst(ts[0], rest);
      assert rest[1..] == Spell(ts[1..]);
      assert ts[0] + " " + Spell(ts[1..]) == ts[0] + rest;
      assert ts == [ts[0]] + ts[1..];
    }
  }

  lemma PrintLexes(n: Node)
    requires Plain(n)
    ensures var s := Spell(Print(n, 3)); !Blank(s) && Lex(s) == Ok(Print(n, 3))
  {
    PrintSome(n, 3);
    LexSpell(Print(n, 3));
    BlankHasNoTokens(Spell(Print(n, 3)));
  }

  lemma PrintParses(n: Node, ts: seq<string>)
    requires Plain(n) && ts == Print(n, 3)
    ensures DerivesOr(ts, 0, |ts|, n)
  {
    assert ts[0..0 + |ts|] == ts;
    PrintDerives(n, 3, ts, 0);
  }

  /** Compiling what was printed gives back the very tree. */
  lemma CompilePrint(n: Node)
    requires Plain(n)
    ensures Compile(Spell(Print(n, 3))) == Ok(Selecting(n))
  {
    PrintLexes(n);
    PrintParses(n, Print(n, 3));
    CompileMeans(Spell(Print(n, 3)), n);
  }

  lemma {:induction false} BlankHasNoTokens(s: string)
    ensures Blank(s) ==> Tokens(s) == Ok([])
  {
    if s != "" && Blank(s) {
      BlankHasNoTokens(s[1..]);
    }
  }

  // ----- Evaluation -----

  predicate Eval(n: Node, markers: set<string>) {
    match n
    case Ident(name) => name in markers
    case Not(inner) => !Eval(inner, markers)
    case And(lhs, rhs) => Eval(lhs, markers) && Eval(rhs, markers)
    case Or(lhs, rhs) => Eval(lhs, markers) || Eval(rhs, markers)
  }

  predicate Matches(e: MarkerExpr, markers: seq<string>) {
    e.Everything? || Eval(e.node, set m | m in markers)
  }

  method Match(e: MarkerExpr, markers: seq<string>) returns (selected: bool)
    ensures selected == Matches(e, markers)
  {
    if e.Everything? {
      return true;
    }
    var present: set<string> := {};
    for i := 0 to |markers|
      invariant present == set m | m in markers[..i]
    {
      present := present + {markers[i]};
    }
    assert markers[..|markers|] == markers;
    return Eval(e.node, present);
  }

  /** A tree's names are all that can matter: markers that agree on them select alike. */
  function Names(n: Node): set<string> {
    match n
    case Ident(name) => {name}
    case Not(inner) => Names(inner)
    case And(lhs, rhs) => Names(lhs) + Names(rhs)
    case Or(lhs, rhs) => Names(lhs) + Names(rhs)
  }

  lemma {:induction false} OnlyNamesMatter(n: Node, m1: seq<string>, m2: seq<string>)
    requires forall name :: name in Names(n) ==> (name in m1 <==> name in m2)
    ensures Matches(Selecting(n), m1) == Matches(Selecting(n), m2)
  {
    match n
    case Ident(name) =>
    case Not(inner) => OnlyNamesMatter(inner, m1, m2);
    case And(lhs, rhs) =>
      OnlyNamesMatter(lhs, m1, m2);
      OnlyNamesMatter(rhs, m1, m2);
    case Or(lhs, rhs) =>
      OnlyNamesMatter(lhs, m1, m2);
      OnlyNamesMatter(rhs, m1, m2);
  }

  // ----- What an expression selects -----

  /** The expression compiles, and selects a test with these markers. */
  predicate Selects(text: string, markers: seq<string>) {
    Compile(text).Ok? && Matches(Compile(text).value, markers)
  }

  /** The expression compiles to a tree: it is neither wrong nor blank. */
  predicate IsTree(text: string) {
    Compile(text).Ok? && Compile(text).value.Selecting?
  }

  lemma {:induction false} RunConcat(s: string, t: string)
    requires t == "" || !IsIdentRune(t[0])
    ensures Run(s + t) == Run(s)
  {
    if s == "" {
      assert s + t == t;
    } else {
      assert (s + t)[1..] == s[1..] + t;
      RunConcat(s[1..], t);
    }
  }

  /** Texts lex apart when the second does not begin inside a name. */
  lemma {:induction false} TokensConcat(s: string, t: string)
    requires Tokens(s).Ok? && (t == "" || !IsIdentRune(t[0]))
    ensures Tokens(s + t) == Append(Tokens(s).value, Tokens(t))
    decreases |s|
  {
    if s == "" {
      assert s + t == t && (Tokens(t).Ok? ==> [] + Tokens(t).value == Tokens(t).value);
    } else if IsSpace(s[0]) {
      assert (s + t)[1..] == s[1..] + t;
      TokensConcat(s[1..], t);
    } else {
      var n := if IsParen(s[0]) then 1 else Run(s);
      RunConcat(s, t);
      assert (s + t)[n..] == s[n..] + t && (s + t)[..n] == s[..n] && s[..1] == [s[0]];
      TokensConcat(s[n..], t);
      PrependAppend(s[..n], Tokens(s[n..]).value, Tokens(t));
    }
  }

  lemma PrependAppend(t: string, ts: seq<string>, r: Result<seq<string>, Error>)
    ensures Prepend(t, Append(ts, r)) == Append([t] + ts, r)
  {
    if r.Ok? {
      assert [t] + (ts + r.value) == [t] + ts + r.value;
    }
  }

  /** A derivation stands wherever its tokens do. */
  lemma {:induction false} Shift(level: nat, ts: seq<string>, a: nat, b: nat, n: Node, us: seq<string>, off: nat)
    requires level <= 3 && a <= b <= |ts| && Stands(ts, us, off) && DerivesAt(level, ts, a, b, n)
    ensures DerivesAt(level, us, off + a, off + b, n)
    decreases b - a, level
  {
    assert forall i :: 0 <= i < |ts| ==> us[off + i] == us[off..off + |ts|][i] == ts[i];
    if level == 0 {
      if !(a + 1 == b && IsName(ts[a]) && n == Ident(ts[a])) {
        Shift(3, ts, a + 1, b - 1, n, us, off);
      }
    } else if DerivesAt(level - 1, ts, a, b, n) {
      Shift(level - 1, ts, a, b, n, us, off);
    } else if level == 1 {
      Shift(1, ts, a + 1, b, n.inner, us, off);
    } else if level == 2 {
      var k :| a < k < b && ts[k] == "and" && DerivesAnd(ts, a, k, n.lhs) && DerivesNot(ts, k + 1, b, n.rhs);
      Shift(2, ts, a, k, n.lhs, us, off);
      Shift(1, ts, k + 1, b, n.rhs, us, off);
      JoinAnd(n.lhs, n.rhs, us, off + a, off + k, off + b);
    } else {
      var k :| a < k < b && ts[k] == "or" && DerivesOr(ts, a, k, n.lhs) && DerivesAnd(ts, k + 1, b, n.rhs);
      Shift(3, ts, a, k, n.lhs, us, off);
      Shift(2, ts, k + 1, b, n.rhs, us, off);
      JoinOr(n.lhs, n.rhs, us, off + a, off + k, off + b);
    }
  }

  function Parens(ts: seq<string>): seq<string> {
    ["("] + ts + [")"]
  }

  /** What derives a tree derives it as an atom in parentheses among other tokens. */
  lemma InParens(ts: seq<string>, n: Node, us: seq<string>, off: nat)
    requires DerivesOr(ts, 0, |ts|, n) && Stands(Parens(ts), us, off)
    ensures DerivesAtom(us, off, off + |ts| + 2, n)
  {
    if Stands(ts, us, off + 1) {
      Shift(3, ts, 0, |ts|, n, us, off + 1);
    }
    AtomParens(us, off, ts, n);
  }

  lemma OneParen()
    ensures Tokens(")") == Ok([")"])
  {
    assert ")"[1..] == "" && [")"[0]] == ")" && [")"] + [] == [")"];
  }

  lemma ParensTokens(q: string)
    requires Tokens(q).Ok?
    ensures Tokens("(" + q + ")") == Ok(Parens(Tokens(q).value))
  {
    var s := "(" + q + ")";
    assert s[1..] == q + ")" && [s[0]] == "(";
    OneParen();
    TokensConcat(q, ")");
    assert ["("] + (Tokens(q).value + [")"]) == Parens(Tokens(q).value);
  }

  lemma WordTokens(op: string, rest: string)
    requires op in {"and", "or", "not"}
    ensures Tokens(op + " " + rest) == Prepend(op, Tokens(rest))
  {
    assert op + " " + rest == op + (" " + rest);
    TokenFirst(op, " " + rest);
    assert (" " + rest)[1..] == rest;
  }

  lemma SpaceFirst(rest: string)
    ensures Tokens(" " + rest) == Tokens(rest)
  {
    assert (" " + rest)[1..] == rest;
  }

  lemma JoinTokens(left: string, op: string, right: string)
    requires Tokens(left).Ok? && Tokens(right).Ok? && op in {"and", "or"}
    ensures Tokens(left + " " + op + " " + right) == Ok(Tokens(left).value + [op] + Tokens(right).value)
  {
    hide Tokens;
    var tail := " " + op + " " + right;
    assert tail == " " + (op + " " + right) && left + tail == left + " " + op + " " + right;
    SpaceFirst(op + " " + right);
    WordTokens(op, right);
    TokensConcat(left, tail);
    Reassociate(Tokens(left).value, op, Tokens(right).value);
  }

  lemma Reassociate(xs: seq<string>, y: string, zs: seq<string>)
    ensures xs + ([y] + zs) == xs + [y] + zs
  {
  }

  /** The text of a pair, and the tokens it lexes to. */
  function Paired(p: string, op: string, q: string): string {
    "(" + p + ")" + " " + op + " " + "(" + q + ")"
  }

  function PairedTokens(ts: seq<string>, op: string, us: seq<string>): seq<string> {
    Parens(ts) + [op] + Parens(us)
  }

  lemma PairTokens(p: string, op: string, q: string)
    requires Tokens(p).Ok? && Tokens(q).Ok? && op in {"and", "or"}
    ensures Tokens(Paired(p, op, q)) == Ok(PairedTokens(Tokens(p).value, op, Tokens(q).value))
    ensures !Blank(Paired(p, op, q))
  {
    ParensTokens(p);
    ParensTokens(q);
    JoinTokens("(" + p + ")", op, "(" + q + ")");
    assert Paired(p, op, q) == "(" + p + ")" + " " + op + " " + ("(" + q + ")");
    assert Paired(p, op, q)[0] == '(';
  }

  /** Both halves of a pair stand as atoms around the operator. */
  lemma PairDerives(ts: seq<string>, m: Node, op: string, us: seq<string>, n: Node)
    requires DerivesOr(ts, 0, |ts|, m) && DerivesOr(us, 0, |us|, n)
    ensures var all, k := PairedTokens(ts, op, us), |ts| + 2;
            && 0 < k < |all| && all[k] == op
            && DerivesAtom(all, 0, k, m) && DerivesAtom(all, k + 1, |all|, n)
  {
    var all := PairedTokens(ts, op, us);
    assert all[0..0 + |all|] == all;
    StandsApart(Parens(ts), op, Parens(us), all, 0);
    InParens(ts, m, all, 0);
    InParens(us, n, all, |ts| + 3);
  }

  lemma TreeLexes(p: string)
    requires IsTree(p)
    ensures Tokens(p).Ok? && DerivesOr(Tokens(p).value, 0, |Tokens(p).value|, Compile(p).value.node)
  {
    CompileMeans(p, Compile(p).value.node);
  }

  lemma PairCompiles(p: string, op: string, q: string)
    requires IsTree(p) && IsTree(q) && op in {"and", "or"}
    ensures var m, n := Compile(p).value.node, Compile(q).value.node;
            Compile(Paired(p, op, q)) == Ok(Selecting(if op == "and" then And(m, n) else Or(m, n)))
  {
    var m, n := Compile(p).value.node, Compile(q).value.node;
    TreeLexes(p);
    TreeLexes(q);
    PairTokens(p, op, q);
    var ts, us := Tokens(p).value, Tokens(q).value;
    PairDerives(ts, m, op, us, n);
    Joined(m, op, n, PairedTokens(ts, op, us), |ts| + 2);
    CompileMeans(Paired(p, op, q), if op == "and" then And(m, n) else Or(m, n));
  }

  lemma Joined(m: Node, op: string, n: Node, all: seq<string>, k: nat)
    requires 0 < k < |all| && all[k] == op && op in {"and", "or"}
    requires DerivesAtom(all, 0, k, m) && DerivesAtom(all, k + 1, |all|, n)
    ensures DerivesOr(all, 0, |all|, if op == "and" then And(m, n) else Or(m, n))
  {
    Loosen(0, 3, all, 0, k, m);
    Loosen(0, 2, all, 0, k, m);
    Loosen(0, 2, all, k + 1, |all|, n);
    Loosen(0, 1, all, k + 1, |all|, n);
    if op == "and" {
      JoinAnd(m, n, all, 0, k, |all|);
    } else {
      JoinOr(m, n, all, 0, k, |all|);
    }
  }

  /** `and` selects what both sides do, whatever they are. */
  lemma SelectsBoth(p: string, q: string)
    requires IsTree(p) && IsTree(q)
    ensures var text := "(" + p + ") and (" + q + ")";
            IsTree(text) && forall ms :: Selects(text, ms) <==> Selects(p, ms) && Selects(q, ms)
  {
    PairCompiles(p, "and", q);
    assert "(" + p + ") and (" + q + ")" == Paired(p, "and", q);
  }

  /** `or` selects what either side does. */
  lemma SelectsEither(p: string, q: string)
    requires IsTree(p) && IsTree(q)
    ensures var text := "(" + p + ") or (" + q + ")";
            IsTree(text) && forall ms :: Selects(text, ms) <==> Selects(p, ms) || Selects(q, ms)
  {
    PairCompiles(p, "or", q);
    assert "(" + p + ") or (" + q + ")" == Paired(p, "or", q);
  }

  /** `not` selects what the expression does not. */
  lemma SelectsOthers(p: string)
    requires IsTree(p)
    ensures var text := "not (" + p + ")";
            IsTree(text) && forall ms :: Selects(text, ms) <==> !Selects(p, ms)
  {
    NotCompiles(p);
  }

  lemma NotCompiles(p: string)
    requires IsTree(p)
    ensures Compile("not (" + p + ")") == Ok(Selecting(Not(Compile(p).value.node)))
  {
    var text, m, ts := "not (" + p + ")", Compile(p).value.node, Tokens(p).value;
    TreeLexes(p);
    ParensTokens(p);
    assert text == "not" + " " + ("(" + p + ")") && text[0] == 'n';
    WordTokens("not", "(" + p + ")");
    NotDerives(ts, m);
    CompileMeans(text, Not(m));
  }

  lemma NotDerives(ts: seq<string>, m: Node)
    requires DerivesOr(ts, 0, |ts|, m)
    ensures var us := ["not"] + Parens(ts); DerivesOr(us, 0, |us|, Not(m))
  {
    var us := ["not"] + Parens(ts);
    assert us[0..0 + |us|] == us;
    NotPrefix(us, 0, Parens(ts));
    InParens(ts, m, us, 1);
    Loosen(0, 1, us, 1, |us|, m);
    Loosen(1, 3, us, 0, |us|, Not(m));
  }

  /** Letters, Latin-1 ones included, digits and the underscore. */
  predicate IsNameChar(c: char) {
    || 'a' <= c <= 'z' || 'A' <= c <= 'Z' || '0' <= c <= '9' || c == '_'
    || c in ['\U{aa}', '\U{b5}', '\U{ba}']
    || '\U{c0}' <= c <= '\U{d6}' || '\U{d8}' <= c <= '\U{f6}' || '\U{f8}' <= c <= '\U{ff}'
  }

  /** A name selects the tests that carry it. */
  lemma SelectsNamed(name: string)
    requires name != "" && name !in {"and", "or", "not"} && forall i :: 0 <= i < |name| ==> IsNameChar(name[i])
    ensures IsTree(name) && forall ms :: Selects(name, ms) <==> name in ms
  {
    assert IsWord(name);
    TokenFirst(name, "");
    assert name + "" == name && [name] + [] == [name];
    assert !Blank(name) by {
      assert IsNameChar(name[0]);
    }
    NameDerives(name, [name], 0);
    Loosen(0, 3, [name], 0, 1, Ident(name));
    CompileMeans(name, Ident(name));
  }

  /** Nothing but white space selects every test. */
  lemma SelectsAll(s: string, ms: seq<string>)
    requires forall i :: 0 <= i < |s| ==> s[i] in {' ', '\t', '\n', '\r'}
    ensures Selects(s, ms)
  {
  }

  lemma {:induction false} OneLexError(s: string)
    ensures Tokens(s).Err? ==> Tokens(s).error == BadCharacter
    decreases |s|
  {
    if s != "" {
      if IsSpace(s[0]) || IsParen(s[0]) {
        OneLexError(s[1..]);
      } else if IsIdentRune(s[0]) {
        OneLexError(s[Run(s)..]);
      }
    }
  }

  /** Any other character anywhere is an error. */
  lemma OtherCharacters(p: string, c: char, q: string)
    requires !IsNameChar(c) && c !in {'(', ')', ' ', '\U{85}', '\U{a0}'} && !('\t' <= c <= '\r')
    ensures Compile(p + [c] + q) == Err(BadCharacter)
  {
    var s := p + [c] + q;
    assert s[|p|] == c && !IsIdentRune(c);
    TokensMean(s);
    OneLexError(s);
  }

  // ----- What is wrong with an expression -----

  /** An operand has to begin at `q`. */
  predicate Wanting(ts: seq<string>, q: nat) {
    q <= |ts| && (q == 0 || ts[q - 1] in ["(", "and", "or", "not"])
  }

  /** What stands at `q` is at fault. */
  predicate FaultAt(ts: seq<string>, q: nat, e: Error) {
    match e
    case UnexpectedEnd => Wanting(ts, q) && q == |ts|
    case UnexpectedParen => Wanting(ts, q) && q < |ts| && ts[q] == ")"
    case UnexpectedOperator => Wanting(ts, q) && q < |ts| && ts[q] in ["and", "or"]
    case MissingParen => 0 < q <= |ts| && !Wanting(ts, q) && (q < |ts| ==> ts[q] !in [")", "and", "or"])
    case _ => false
  }

  /** What parsing from an operand on comes to: an end that follows an operand, or a fault. */
  ghost predicate Blames(ts: seq<string>, r: Parsed) {
    match r
    case Good(_, p) => 0 < p <= |ts| && !Wanting(ts, p)
    case Bad(e) => exists q :: FaultAt(ts, q, e)
  }

  /** No token is empty, as the lexer guarantees. */
  predicate Solid(ts: seq<string>) {
    forall i :: 0 <= i < |ts| ==> ts[i] != ""
  }

  lemma {:induction false} BlameOr(ts: seq<string>, pos: nat)
    requires Solid(ts) && Wanting(ts, pos)
    ensures Blames(ts, ParseOr(ts, pos))
    ensures ParseOr(ts, pos).Good? ==> Peek(ts, ParseOr(ts, pos).pos) !in ["and", "or"]
    decreases |ts| - pos, 4
  {
    BlameAnd(ts, pos);
    if ParseAnd(ts, pos).Good? {
      BlameOrTail(ts, ParseAnd(ts, pos).pos, ParseAnd(ts, pos).node);
    }
  }

  lemma {:induction false} BlameOrTail(ts: seq<string>, pos: nat, lhs: Node)
    requires Solid(ts) && 0 < pos <= |ts| && !Wanting(ts, pos) && Peek(ts, pos) != "and"
    ensures Blames(ts, OrTail(ts, pos, lhs))
    ensures OrTail(ts, pos, lhs).Good? ==> Peek(ts, OrTail(ts, pos, lhs).pos) !in ["and", "or"]
    decreases |ts| - pos, 3
  {
    if Peek(ts, pos) == "or" {
      var r := ParseAnd(ts, pos + 1);
      BlameAnd(ts, pos + 1);
      if r.Good? {
        BlameOrTail(ts, r.pos, Or(lhs, r.node));
      }
    }
  }

  lemma {:induction false} BlameAnd(ts: seq<string>, pos: nat)
    requires Solid(ts) && Wanting(ts, pos)
    ensures Blames(ts, ParseAnd(ts, pos))
    ensures ParseAnd(ts, pos).Good? ==> Peek(ts, ParseAnd(ts, pos).pos) != "and"
    decreases |ts| - pos, 2
  {
    BlameNot(ts, pos);
    if ParseNot(ts, pos).Good? {
      BlameAndTail(ts, ParseNot(ts, pos).pos, ParseNot(ts, pos).node);
    }
  }

  lemma {:induction false} BlameAndTail(ts: seq<string>, pos: nat, lhs: Node)
    requires Solid(ts) && 0 < pos <= |ts| && !Wanting(ts, pos)
    ensures Blames(ts, AndTail(ts, pos, lhs))
    ensures AndTail(ts, pos, lhs).Good? ==> Peek(ts, AndTail(ts, pos, lhs).pos) != "and"
    decreases |ts| - pos, 2
  {
    if Peek(ts, pos) == "and" {
      var r := ParseNot(ts, pos + 1);
      BlameNot(ts, pos + 1);
      if r.Good? {
        BlameAndTail(ts, r.pos, And(lhs, r.node));
      }
    }
  }

  lemma {:induction false} BlameNot(ts: seq<string>, pos: nat)
    requires Solid(ts) && Wanting(ts, pos)
    ensures Blames(ts, ParseNot(ts, pos))
    decreases |ts| - pos, 1
  {
    if Peek(ts, pos) == "not" {
      BlameNot(ts, pos + 1);
    } else {
      BlameAtom(ts, pos);
    }
  }

  lemma {:induction false} BlameAtom(ts: seq<string>, pos: nat)
    requires Solid(ts) && Wanting(ts, pos) && Peek(ts, pos) != "not"
    ensures Blames(ts, ParseAtom(ts, pos))
    decreases |ts| - pos, 0
  {
    var tok, r := Peek(ts, pos), ParseAtom(ts, pos);
    if tok == "(" {
      var inner := ParseOr(ts, pos + 1);
      BlameOr(ts, pos + 1);
      if inner.Good? && Peek(ts, inner.pos) != ")" {
        assert FaultAt(ts, inner.pos, MissingParen);
      }
    } else if r.Bad? {
      assert FaultAt(ts, pos, r.error);
    }
  }

  lemma {:induction false} LexedSolid(s: string)
    ensures Tokens(s).Ok? ==> Solid(Tokens(s).value)
  {
    TokensMean(s);
  }

  /** Why an expression that is not blank is refused: a character of no kind; white
      space of another kind only; more after a whole expression; or a token, or the
      end, where an operand or a parenthesis has to stand. */
  lemma WhyRefused(s: string)
    requires !Blank(s) && Compile(s).Err?
    ensures var e := Compile(s).error;
            && (e == BadCharacter <==> !Lexable(s))
            && (e == NoTokens <==>
                  forall i :: 0 <= i < |s| ==> '\t' <= s[i] <= '\r' || s[i] in [' ', '\U{85}', '\U{a0}'])
            && (Lexable(s) && e != NoTokens ==>
                  Lex(s).Ok? &&
                  var ts := Lex(s).value;
                  if e == Trailing then
                    exists p, n :: 0 < p < |ts| && ts[p] !in ["and", "or"] && DerivesOr(ts, 0, p, n)
                  else exists q :: FaultAt(ts, q, e))
  {
    TokensMean(s);
    OneLexError(s);
    OnlySpaces(s);
    if Lex(s).Ok? {
      var ts := Lex(s).value;
      LexedSolid(s);
      BlameOr(ts, 0);
      if ParseOr(ts, 0).Good? {
        SoundOr(ts, 0);
      }
    }
  }

  lemma {:induction false} OnlySpaces(s: string)
    ensures Tokens(s) == Ok([]) <==> forall i :: 0 <= i < |s| ==> IsSpace(s[i])
  {
    if s != "" && IsSpace(s[0]) {
      OnlySpaces(s[1..]);
      assert forall i :: 0 < i < |s| ==> s[i] == s[1..][i - 1];
    }
  }
}
