/** Source text as it is written, piece by piece, and what masking makes of it: the comments become
    blank and everything else stays. */
module WrittenSource {
  import opened CommentMasking

  /** One unit of a literal: a character as it is, or one behind a backslash. */
  datatype Unit = Char(c: char) | Escape(c: char)

  datatype Piece =
    | Plain(code: string)
    | LineComment(body: string)
    | BlockComment(body: string)
    | Literal(quote: char, units: seq<Unit>)

  /** How a text may end: with the last piece, or in a comment or literal that is never closed. */
  datatype Ending =
    | Finished
    | OpenLine(body: string)
    | OpenBlock(body: string)
    | OpenLiteral(quote: char, units: seq<Unit>)

  function UnitText(u: Unit): string {
    match u case Char(c) => [c] case Escape(c) => ['\\', c]
  }

  function UnitsText(units: seq<Unit>): string {
    if units == [] then "" else UnitText(units[0]) + UnitsText(units[1..])
  }

  function PieceText(p: Piece): string {
    match p
    case Plain(code) => code
    case LineComment(body) => ['/', '/'] + body + ['\n']
    case BlockComment(body) => ['/', '*'] + body + ['*', '/']
    case Literal(q, units) => [q] + UnitsText(units) + [q]
  }

  function EndText(e: Ending): string {
    match e
    case Finished => ""
    case OpenLine(body) => ['/', '/'] + body
    case OpenBlock(body) => ['/', '*'] + body
    case OpenLiteral(q, units) => [q] + UnitsText(units)
  }

  function Written(pieces: seq<Piece>, e: Ending): string {
    if pieces == [] then EndText(e) else PieceText(pieces[0]) + Written(pieces[1..], e)
  }

  // ---- Which texts these are ---------------------------------------------------------------------

  predicate CodeOnly(code: string) {
    && (forall i :: 0 <= i < |code| ==> !IsQuote(code[i]) && !Pair(code, i, '/', '/') && !Pair(code, i, '/', '*'))
    && (code != "" ==> code[|code| - 1] != '/')
  }

  predicate NoNewline(body: string) {
    forall i :: 0 <= i < |body| ==> body[i] != '\n'
  }

  predicate NoCloser(body: string) {
    forall i :: 0 <= i < |body| ==> !Pair(body, i, '*', '/')
  }

  predicate Quotable(q: char, units: seq<Unit>) {
    IsQuote(q) && forall i :: 0 <= i < |units| ==> units[i].Char? ==> units[i].c != q && units[i].c != '\\'
  }

  predicate WellWritten(p: Piece) {
    match p
    case Plain(code) => CodeOnly(code)
    case LineComment(body) => NoNewline(body)
    case BlockComment(body) => NoCloser(body)
    case Literal(q, units) => Quotable(q, units)
  }

  predicate WellEnded(e: Ending) {
    match e
    case Finished => true
    case OpenLine(body) => NoNewline(body)
    case OpenBlock(body) => NoCloser(body)
    case OpenLiteral(q, units) => Quotable(q, units)
  }

  // ---- What masking should make of them --------------------------------------------------------

  function Blank(s: string): (b: string)
    ensures |b| == |s|
    ensures forall i :: 0 <= i < |s| ==> b[i] == if s[i] == '\n' then '\n' else ' '
  {
    seq(|s|, i requires 0 <= i < |s| => if s[i] == '\n' then '\n' else ' ')
  }

  function PieceShown(p: Piece): (s: string)
    ensures |s| == |PieceText(p)|
  {
    if p.LineComment? || p.BlockComment? then Blank(PieceText(p)) else PieceText(p)
  }

  function Shown(pieces: seq<Piece>, e: Ending): (s: string)
    ensures |s| == |Written(pieces, e)|
  {
    if pieces == [] then (if e.OpenLine? || e.OpenBlock? then Blank(EndText(e)) else EndText(e))
    else PieceShown(pieces[0]) + Shown(pieces[1..], e)
  }

  // ---- One piece at a time -----------------------------------------------------------------------

  /** `s` stands in the text from `a` on. */
  ghost predicate At(text: string, a: nat, s: string) {
    a + |s| <= |text| && forall i :: 0 <= i < |s| ==> text[a + i] == s[i]
  }

  /** Masking turns what stands from `a` on into `s`. */
  ghost predicate Becomes(text: string, a: nat, s: string) {
    a + |s| <= |text| && forall i :: 0 <= i < |s| ==> MaskedChar(text, a + i) == s[i]
  }

  lemma AtParts(text: string, a: nat, s: string, t: string)
    requires At(text, a, s + t)
    ensures At(text, a, s) && At(text, a + |s|, t)
  {
    assert forall i :: 0 <= i < |s| ==> (s + t)[i] == s[i];
    assert forall i :: 0 <= i < |t| ==> (s + t)[|s| + i] == t[i];
  }

  lemma BecomesParts(text: string, a: nat, s: string, t: string)
    requires Becomes(text, a, s) && Becomes(text, a + |s|, t)
    ensures Becomes(text, a, s + t)
  {
    forall i | 0 <= i < |s + t| ensures MaskedChar(text, a + i) == (s + t)[i] {
      assert i >= |s| ==> MaskedChar(text, (a + |s|) + (i - |s|)) == t[i - |s|];
    }
  }

  lemma {:induction false} CodeStays(text: string, a: nat, code: string, n: nat)
    requires At(text, a, code) && CodeOnly(code) && ModeAt(text, a) == Code && n <= |code|
    ensures ModeAt(text, a + n) == Code && Becomes(text, a, code[..n])
    decreases n
  {
    if n > 0 {
      CodeStays(text, a, code, n - 1);
      var k := a + n - 1;
      assert text[k] == code[n - 1] && (n < |code| ==> text[k + 1] == code[n]);
      assert !Pair(code, n - 1, '/', '/') && !Pair(code, n - 1, '/', '*');
    }
  }

  lemma {:induction false} LineGoesBlank(text: string, a: nat, body: string, n: nat)
    requires At(text, a, ['/', '/'] + body) && NoNewline(body) && ModeAt(text, a) == Code && n <= |body|
    ensures ModeAt(text, a + 2 + n) == Line && Becomes(text, a, Blank((['/', '/'] + body)[..2 + n]))
    decreases n
  {
    var s := ['/', '/'] + body;
    assert text[a] == s[0] && text[a + 1] == s[1];
    if n == 0 {
      assert ModeAt(text, a + 1) == Line;
    } else {
      LineGoesBlank(text, a, body, n - 1);
      assert text[a + 1 + n] == s[1 + n] == body[n - 1];
    }
  }

  lemma {:induction false} BlockGoesBlank(text: string, a: nat, body: string, n: nat)
    requires At(text, a, ['/', '*'] + body) && NoCloser(body) && ModeAt(text, a) == Code && n <= |body|
    requires a + 2 + |body| < |text| ==> text[a + 2 + |body|] != '/' || body == "" || body[|body| - 1] != '*'
    ensures ModeAt(text, a + 2 + n) == Block && Becomes(text, a, Blank((['/', '*'] + body)[..2 + n]))
    decreases n
  {
    var s := ['/', '*'] + body;
    assert text[a] == s[0] && text[a + 1] == s[1];
    if n == 0 {
      assert ModeAt(text, a + 1) == Opening;
    } else {
      BlockGoesBlank(text, a, body, n - 1);
      assert text[a + 1 + n] == s[1 + n] == body[n - 1];
      assert !Pair(body, n - 1, '*', '/');
      assert n < |body| ==> text[a + 2 + n] == s[2 + n] == body[n];
    }
  }

  lemma UnitStays(text: string, a: nat, q: char, u: Unit)
    requires At(text, a, UnitText(u)) && ModeAt(text, a) == Text(q)
    requires u.Char? ==> u.c != q && u.c != '\\'
    ensures ModeAt(text, a + |UnitText(u)|) == Text(q) && Becomes(text, a, UnitText(u))
  {
    assert text[a] == UnitText(u)[0];
    assert u.Escape? ==> ModeAt(text, a + 1) == Escaped(q) && text[a + 1] == UnitText(u)[1];
  }

  lemma {:induction false} UnitsStay(text: string, a: nat, q: char, units: seq<Unit>)
    requires At(text, a, UnitsText(units)) && ModeAt(text, a) == Text(q) && Quotable(q, units)
    ensures ModeAt(text, a + |UnitsText(units)|) == Text(q) && Becomes(text, a, UnitsText(units))
    decreases |units|
  {
    if units != [] {
      var first := UnitText(units[0]);
      AtParts(text, a, first, UnitsText(units[1..]));
      UnitStays(text, a, q, units[0]);
      UnitsStay(text, a + |first|, q, units[1..]);
      BecomesParts(text, a, first, UnitsText(units[1..]));
    }
  }

  lemma LiteralStays(text: string, a: nat, q: char, units: seq<Unit>)
    requires At(text, a, [q] + UnitsText(units)) && ModeAt(text, a) == Code && Quotable(q, units)
    ensures ModeAt(text, a + 1 + |UnitsText(units)|) == Text(q) && Becomes(text, a, [q] + UnitsText(units))
  {
    AtParts(text, a, [q], UnitsText(units));
    assert text[a] == [q][0];
    assert ModeAt(text, a + 1) == Text(q);
    UnitsStay(text, a + 1, q, units);
    BecomesParts(text, a, [q], UnitsText(units));
  }

  lemma PieceIsMasked(text: string, a: nat, p: Piece)
    requires At(text, a, PieceText(p)) && WellWritten(p) && ModeAt(text, a) == Code
    ensures ModeAt(text, a + |PieceText(p)|) == Code && Becomes(text, a, PieceShown(p))
  {
    match p
    case Plain(code) =>
      CodeStays(text, a, code, |code|);
      assert code[..|code|] == code;
    case LineComment(body) => LineIsMasked(text, a, body);
    case BlockComment(body) => BlockIsMasked(text, a, body);
    case Literal(q, units) =>
      AtParts(text, a, [q] + UnitsText(units), [q]);
      LiteralStays(text, a, q, units);
      var k := a + 1 + |UnitsText(units)|;
      assert text[k] == [q][0];
      assert Becomes(text, k, [q]);
      BecomesParts(text, a, [q] + UnitsText(units), [q]);
  }

  lemma LineIsMasked(text: string, a: nat, body: string)
    requires At(text, a, ['/', '/'] + body + ['\n']) && NoNewline(body) && ModeAt(text, a) == Code
    ensures ModeAt(text, a + 3 + |body|) == Code && Becomes(text, a, Blank(['/', '/'] + body + ['\n']))
  {
    var s := ['/', '/'] + body;
    AtParts(text, a, s, ['\n']);
    LineGoesBlank(text, a, body, |body|);
    assert s[..2 + |body|] == s;
    assert text[a + |s|] == ['\n'][0];
    assert Becomes(text, a + |s|, ['\n']);
    BecomesParts(text, a, Blank(s), ['\n']);
    assert Blank(s + ['\n']) == Blank(s) + ['\n'];
  }

  lemma BlockIsMasked(text: string, a: nat, body: string)
    requires At(text, a, ['/', '*'] + body + ['*', '/']) && NoCloser(body) && ModeAt(text, a) == Code
    ensures ModeAt(text, a + 4 + |body|) == Code && Becomes(text, a, Blank(['/', '*'] + body + ['*', '/']))
  {
    var s, t := ['/', '*'] + body, ['*', '/'];
    AtParts(text, a, s, t);
    var k := a + |s|;
    assert text[k] == t[0] && text[k + 1] == t[1];
    BlockGoesBlank(text, a, body, |body|);
    assert s[..2 + |body|] == s;
    assert ModeAt(text, k + 1) == Closing;
    assert Becomes(text, k, Blank(t));
    BecomesParts(text, a, Blank(s), Blank(t));
    assert Blank(s + t) == Blank(s) + Blank(t);
  }

  lemma EndIsMasked(text: string, a: nat, e: Ending)
    requires At(text, a, EndText(e)) && a + |EndText(e)| == |text| && WellEnded(e) && ModeAt(text, a) == Code
    ensures Becomes(text, a, Shown([], e))
  {
    var s := EndText(e);
    match e
    case Finished =>
    case OpenLine(body) =>
      LineGoesBlank(text, a, body, |body|);
      assert s[..2 + |body|] == s;
    case OpenBlock(body) =>
      BlockGoesBlank(text, a, body, |body|);
      assert s[..2 + |body|] == s;
    case OpenLiteral(q, units) => LiteralStays(text, a, q, units);
  }

  // ---- Whole texts -----------------------------------------------------------------------------------

  ghost predicate AllWell(pieces: seq<Piece>, e: Ending) {
    (forall i :: 0 <= i < |pieces| ==> WellWritten(pieces[i])) && WellEnded(e)
  }

  lemma WellCons(pieces: seq<Piece>, e: Ending)
    requires AllWell(pieces, e) && pieces != []
    ensures WellWritten(pieces[0]) && AllWell(pieces[1..], e)
  {
  }

  /** What stands from `a` to the end. */
  ghost predicate EndsWith(text: string, a: nat, s: string) {
    At(text, a, s) && a + |s| == |text| && ModeAt(text, a) == Code
  }

  lemma MovePast(text: string, a: nat, p: Piece, rest: string, all: string)
    requires EndsWith(text, a, all) && all == PieceText(p) + rest && WellWritten(p)
    ensures EndsWith(text, a + |PieceText(p)|, rest)
  {
    AtParts(text, a, PieceText(p), rest);
    PieceIsMasked(text, a, p);
  }

  lemma PutInFront(text: string, a: nat, p: Piece, rest: string, shown: string)
    requires EndsWith(text, a, PieceText(p) + rest) && WellWritten(p)
    requires Becomes(text, a + |PieceText(p)|, shown)
    ensures Becomes(text, a, PieceShown(p) + shown)
  {
    AtParts(text, a, PieceText(p), rest);
    PieceIsMasked(text, a, p);
    BecomesParts(text, a, PieceShown(p), shown);
  }

  lemma {:induction false} RestIsMasked(text: string, a: nat, pieces: seq<Piece>, e: Ending)
    requires AllWell(pieces, e) && EndsWith(text, a, Written(pieces, e))
    ensures Becomes(text, a, Shown(pieces, e))
    decreases |pieces|
  {
    if pieces == [] {
      EndIsMasked(text, a, e);
    } else {
      var p, rest := pieces[0], pieces[1..];
      WellCons(pieces, e);
      MovePast(text, a, p, Written(rest, e), Written(pieces, e));
      RestIsMasked(text, a + |PieceText(p)|, rest, e);
      PutInFront(text, a, p, Written(rest, e), Shown(rest, e));
    }
  }

  /** A text written from code, literals and comments comes out with exactly its comments blank,
      newlines aside: code and literals keep every character, comment signs inside literals included,
      and a comment that is never closed is blank to the end. */
  lemma WrittenIsMasked(pieces: seq<Piece>, e: Ending)
    requires AllWell(pieces, e)
    ensures Masked(Written(pieces, e)) == Shown(pieces, e)
  {
    RestIsMasked(Written(pieces, e), 0, pieces, e);
  }
}
