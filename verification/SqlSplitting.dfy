/** Splitting a migration into statements at the semicolons outside `'…'` and `$$…$$`. */
module SqlSplitting {

  /** White space as JavaScript's `trim` understands it. */
  predicate IsSpace(c: char) {
    || c in "\t\n\r \U{000B}\U{000C}\U{00A0}\U{1680}\U{2028}\U{2029}\U{202F}\U{205F}\U{3000}\U{FEFF}"
    || '\U{2000}' <= c <= '\U{200A}'
  }

  function TrimLeft(s: string): string {
    if s != "" && IsSpace(s[0]) then TrimLeft(s[1..]) else s
  }

  function TrimRight(s: string): string {
    if s != "" && IsSpace(s[|s| - 1]) then TrimRight(s[..|s| - 1]) else s
  }

  function Trim(s: string): string {
    TrimRight(TrimLeft(s))
  }

  datatype Quote = Top | Single | Dollar

  predicate Doubled(s: string, c: char) {
    |s| >= 2 && s[0] == c && s[1] == c
  }

  /** Length of the token at the front: `$$` outside single quotes, `''` inside them, else one. */
  function TokenLength(s: string, q: Quote): nat
    requires s != ""
  {
    if (q != Single && Doubled(s, '$')) || (q == Single && Doubled(s, '\'')) then 2 else 1
  }

  /** The quoting after that token. */
  function NextQuote(s: string, q: Quote): Quote
    requires s != ""
  {
    match q
    case Top => if Doubled(s, '$') then Dollar else if s[0] == '\'' then Single else Top
    case Dollar => if Doubled(s, '$') then Top else Dollar
    case Single => if s[0] == '\'' && !Doubled(s, '\'') then Top else Single
  }

  /** A statement's text, trimmed, or nothing if that leaves nothing. */
  function Flush(buf: string): seq<string> {
    if Trim(buf) == "" then [] else [Trim(buf)]
  }

  /** The statements of `buf + text`, with `text` still to be read in quoting `q`. */
  function Scan(text: string, buf: string, q: Quote): seq<string>
    decreases |text|
  {
    if text == "" then Flush(buf)
    else if q == Top && text[0] == ';' then Flush(buf) + Scan(text[1..], "", Top)
    else
      var n := TokenLength(text, q);
      Scan(text[n..], buf + text[..n], NextQuote(text, q))
  }

  function Split(chunk: string): seq<string> {
    Scan(chunk, "", Top)
  }

  // The four branches of the loop, on indices.

  lemma FlushStep(chunk: string, i: nat, out: seq<string>, buf: string)
    requires i < |chunk| && chunk[i] == ';'
    ensures out + Scan(chunk[i..], buf, Top) == out + Flush(buf) + Scan(chunk[i + 1..], "", Top)
  {
    assert chunk[i..][1..] == chunk[i + 1..];
  }

  lemma PairStep(chunk: string, i: nat, buf: string, q: Quote)
    requires i + 1 < |chunk| && chunk[i] == chunk[i + 1] == if q == Single then '\'' else '$'
    ensures Scan(chunk[i..], buf, q)
         == Scan(chunk[i + 2..], buf + [chunk[i], chunk[i]],
                 if q == Top then Dollar else if q == Dollar then Top else q)
  {
    assert chunk[i..][2..] == chunk[i + 2..] && chunk[i..][..2] == [chunk[i], chunk[i]];
  }

  lemma PlainStep(chunk: string, i: nat, buf: string, q: Quote)
    requires i < |chunk| && TokenLength(chunk[i..], q) == 1 && !(q == Top && chunk[i] == ';')
    ensures Scan(chunk[i..], buf, q) == Scan(chunk[i + 1..], buf + [chunk[i]], NextQuote(chunk[i..], q))
  {
    assert chunk[i..][1..] == chunk[i + 1..] && chunk[i..][..1] == [chunk[i]];
  }

  method SplitSqlStatements(chunk: string) returns (out: seq<string>)
    ensures out == Split(chunk)
  {
    out := [];
    var buf := "";
    var inSingle, inDollar := false, false;
    var i := 0;
    ghost var q := Top;
    assert chunk[0..] == chunk;
    while i < |chunk|
      invariant 0 <= i <= |chunk|
      invariant inSingle == (q == Single) && inDollar == (q == Dollar)
      invariant out + Scan(chunk[i..], buf, q) == Split(chunk)
    {
      var ch := chunk[i];
      var twice := i + 1 < |chunk| && chunk[i + 1] == ch;
      if !inSingle && ch == '$' && twice {
        PairStep(chunk, i, buf, q);
        q := if q == Top then Dollar else Top;
        inDollar := !inDollar;
        buf := buf + ['$', '$'];
        i := i + 2;
      } else if !inDollar && ch == '\'' && inSingle && twice {
        PairStep(chunk, i, buf, q);
        buf := buf + ['\'', '\''];
        i := i + 2;
      } else if !inDollar && ch == ';' && !inSingle {
        FlushStep(chunk, i, out, buf);
        if Trim(buf) != "" {
          out := out + [Trim(buf)];
        }
        buf := "";
        i := i + 1;
      } else {
        PlainStep(chunk, i, buf, q);
        q := NextQuote(chunk[i..], q);
        if !inDollar && ch == '\'' {
          inSingle := !inSingle;
        }
        buf := buf + [ch];
        i := i + 1;
      }
    }
    if Trim(buf) != "" {
      out := out + [Trim(buf)];
    }
  }

  // ---- Pieces -------------------------------------------------------------------------------

  datatype End = Cut | Ends(q: Quote)

  /** Reading `s` from quoting `q` to its end: the final quoting, unless a top-level semicolon
      comes first. */
  function Read(s: string, q: Quote): End
    decreases |s|
  {
    if s == "" then Ends(q)
    else if q == Top && s[0] == ';' then Cut
    else Read(s[TokenLength(s, q)..], NextQuote(s, q))
  }

  /** Closed: no top-level semicolon, every quote closed again. */
  predicate Closed(s: string) {
    Read(s, Top) == Ends(Top)
  }

  /** No top-level semicolon, though a quote may be left open. */
  predicate Whole(s: string) {
    Read(s, Top) != Cut
  }

  function Join(pieces: seq<string>): string {
    if pieces == [] then ""
    else if |pieces| == 1 then pieces[0]
    else pieces[0] + ";" + Join(pieces[1..])
  }

  function Trimmed(pieces: seq<string>): seq<string> {
    if pieces == [] then [] else Flush(pieces[0]) + Trimmed(pieces[1..])
  }

  /** All pieces are closed, except that the last need only be whole. */
  predicate Pieces(pieces: seq<string>) {
    && (forall i :: 0 <= i < |pieces| - 1 ==> Closed(pieces[i]))
    && (pieces != [] ==> Whole(pieces[|pieces| - 1]))
  }

  /** A text and a beginning of it start with the same token, unless the cut splits the token. */
  lemma SameToken(p: string, s: string, q: Quote)
    requires p != "" && p <= s && TokenLength(s, q) <= |p|
    ensures TokenLength(s, q) == TokenLength(p, q) && NextQuote(s, q) == NextQuote(p, q)
  {
  }

  lemma CutOfSlices(s: string, k: nat, n: nat)
    requires n <= k <= |s|
    ensures s[..k][n..] == s[n..][..k - n]
  {
  }

  lemma ScanToken(p: string, rest: string, buf: string, q: Quote)
    requires p != "" && !(q == Top && p[0] == ';') && (rest == "" || rest[0] == ';')
    ensures var n := TokenLength(p, q);
            Scan(p + rest, buf, q) == Scan(p[n..] + rest, buf + p[..n], NextQuote(p, q))
  {
    var n := TokenLength(p, q);
    SameToken(p, p + rest, q);
    assert (p + rest)[n..] == p[n..] + rest && (p + rest)[..n] == p[..n];
  }

  lemma CutAndGlued(buf: string, p: string, n: nat)
    requires n <= |p|
    ensures buf + p[..n] + p[n..] == buf + p
  {
  }

  /** A piece is read into the buffer whole; the separator after it cannot join its last token. */
  lemma {:induction false} ScanPiece(p: string, rest: string, buf: string, q: Quote)
    requires Read(p, q) != Cut && (rest == "" || rest[0] == ';')
    ensures Scan(p + rest, buf, q) == Scan(rest, buf + p, Read(p, q).q)
    decreases |p|
  {
    if p == "" {
      assert p + rest == rest && buf + p == buf;
    } else {
      var n := TokenLength(p, q);
      ScanToken(p, rest, buf, q);
      ScanPiece(p[n..], rest, buf + p[..n], NextQuote(p, q));
      CutAndGlued(buf, p, n);
    }
  }

  /** A closed piece followed by a separator. */
  lemma SplitPiece(p: string, rest: string)
    requires Closed(p)
    ensures Split(p + ";" + rest) == Flush(p) + Split(rest)
  {
    assert p + ";" + rest == p + (";" + rest) && (";" + rest)[1..] == rest && "" + p == p;
    ScanPiece(p, ";" + rest, "", Top);
  }

  lemma SplitLastPiece(p: string)
    requires Whole(p)
    ensures Split(p) == Flush(p)
  {
    ScanPiece(p, "", "", Top);
    assert p + "" == p && "" + p == p;
  }

  /** Splitting undoes joining: any pieces without top-level semicolons come back trimmed, the
      blank ones dropped. */
  lemma {:induction false} SplitUndoesJoin(pieces: seq<string>)
    requires Pieces(pieces)
    ensures Split(Join(pieces)) == Trimmed(pieces)
    decreases |pieces|
  {
    if pieces == [] {
    } else if |pieces| == 1 {
      SplitLastPiece(pieces[0]);
    } else {
      assert Closed(pieces[0]);
      SplitPiece(pieces[0], Join(pieces[1..]));
      assert pieces[1..][|pieces| - 2] == pieces[|pieces| - 1];
      SplitUndoesJoin(pieces[1..]);
    }
  }

  predicate IsStatement(s: string) {
    s != "" && Trim(s) == s
  }

  lemma {:induction false} StatementsAreTrimmed(statements: seq<string>)
    requires forall i :: 0 <= i < |statements| ==> IsStatement(statements[i])
    ensures Trimmed(statements) == statements
    decreases |statements|
  {
    if statements != [] {
      StatementsAreTrimmed(statements[1..]);
    }
  }

  /** For trimmed non-empty statements the round trip is exact. */
  lemma SplitJoinRoundTrip(statements: seq<string>)
    requires Pieces(statements)
    requires forall i :: 0 <= i < |statements| ==> IsStatement(statements[i])
    ensures Split(Join(statements)) == statements
  {
    SplitUndoesJoin(statements);
    StatementsAreTrimmed(statements);
  }

  // ---- What comes out of any text --------------------------------------------------------------

  /** Index of the first top-level semicolon, or the length. */
  function FirstCut(s: string, q: Quote): (k: nat)
    ensures k <= |s|
    decreases |s|
  {
    if s == "" || (q == Top && s[0] == ';') then 0
    else TokenLength(s, q) + FirstCut(s[TokenLength(s, q)..], NextQuote(s, q))
  }

  lemma {:induction false} UpToFirstCut(s: string, q: Quote)
    ensures var k := FirstCut(s, q);
            && Read(s[..k], q) != Cut
            && (k < |s| ==> s[k] == ';' && Read(s[..k], q) == Ends(Top))
    decreases |s|
  {
    if s != "" && !(q == Top && s[0] == ';') {
      var n := TokenLength(s, q);
      var k := FirstCut(s, q);
      UpToFirstCut(s[n..], NextQuote(s, q));
      var p := s[..k];
      CutOfSlices(s, k, n);
      SameToken(p, s, q);
    }
  }

  /** The first statement is the trimmed text up to the first top-level semicolon. */
  lemma SplitAtFirstCut(s: string)
    ensures var k := FirstCut(s, Top);
            Split(s) == Flush(s[..k]) + if k < |s| then Split(s[k + 1..]) else []
  {
    var k := FirstCut(s, Top);
    UpToFirstCut(s, Top);
    if k < |s| {
      SplitAtSemicolon(s, k);
    } else {
      assert s == s[..k];
      SplitLastPiece(s);
    }
  }

  lemma SplitAtSemicolon(s: string, k: nat)
    requires k < |s| && s[k] == ';' && Closed(s[..k])
    ensures Split(s) == Flush(s[..k]) + Split(s[k + 1..])
  {
    var (p, rest) := (s[..k], s[k + 1..]);
    SplitPiece(p, rest);
    assert p + ";" + rest == s;
  }

  lemma {:induction false} ReadIgnoresTrailingSpace(s: string, c: char, q: Quote)
    requires IsSpace(c)
    ensures Read(s + [c], q) == Read(s, q)
    decreases |s|
  {
    if s == "" {
      assert s + [c] == [c] && [c][1..] == "";
    } else {
      var n := TokenLength(s, q);
      assert TokenLength(s + [c], q) == n && NextQuote(s + [c], q) == NextQuote(s, q);
      assert (s + [c])[n..] == s[n..] + [c];
      ReadIgnoresTrailingSpace(s[n..], c, NextQuote(s, q));
    }
  }

  lemma {:induction false} TrimRightKeepsReading(s: string)
    ensures Read(TrimRight(s), Top) == Read(s, Top)
    ensures var t := TrimRight(s); t != "" ==> !IsSpace(t[|t| - 1]) && t[0] == s[0]
    decreases |s|
  {
    if s != "" && IsSpace(s[|s| - 1]) {
      var t := s[..|s| - 1];
      assert s == t + [s[|s| - 1]];
      ReadIgnoresTrailingSpace(t, s[|s| - 1], Top);
      TrimRightKeepsReading(t);
    }
  }

  lemma {:induction false} TrimLeftKeepsReading(s: string)
    ensures Read(TrimLeft(s), Top) == Read(s, Top)
    ensures var t := TrimLeft(s); t != "" ==> !IsSpace(t[0])
    decreases |s|
  {
    if s != "" && IsSpace(s[0]) {
      TrimLeftKeepsReading(s[1..]);
    }
  }

  /** Trimming changes neither what is quoted nor where it ends, and is done once. */
  lemma TrimKeepsReading(s: string)
    ensures Read(Trim(s), Top) == Read(s, Top)
    ensures Trim(Trim(s)) == Trim(s)
  {
    TrimLeftKeepsReading(s);
    TrimRightKeepsReading(TrimLeft(s));
  }

  /** Every output is a trimmed non-empty statement without a top-level semicolon, and all but
      the last have their quotes closed. */
  lemma {:induction false} OutputsAreStatements(s: string)
    ensures Pieces(Split(s))
    ensures forall i :: 0 <= i < |Split(s)| ==> IsStatement(Split(s)[i])
    decreases |s|
  {
    var k := FirstCut(s, Top);
    SplitAtFirstCut(s);
    UpToFirstCut(s, Top);
    TrimKeepsReading(s[..k]);
    if k < |s| {
      OutputsAreStatements(s[k + 1..]);
    }
  }

  /** Splitting is stable on every text: rejoining the statements and splitting again gives the
      same statements. */
  lemma SplittingIsStable(s: string)
    ensures Split(Join(Split(s))) == Split(s)
  {
    OutputsAreStatements(s);
    SplitJoinRoundTrip(Split(s));
  }

  // ---- Statements as SQL writes them --------------------------------------------------------------

  /** Code, a string literal with this value, or a dollar-quoted body. */
  datatype Segment = Plain(text: string) | Literal(value: string) | Body(text: string)

  function Escape(value: string): string {
    if value == "" then ""
    else (if value[0] == '\'' then "''" else [value[0]]) + Escape(value[1..])
  }

  function Render(g: Segment): string {
    match g
    case Plain(text) => text
    case Literal(value) => "'" + Escape(value) + "'"
    case Body(text) => "$$" + text + "$$"
  }

  function RenderAll(gs: seq<Segment>): string {
    if gs == [] then "" else Render(gs[0]) + RenderAll(gs[1..])
  }

  /** No `$$`, not even together with a `$` that might follow. */
  predicate NoDollars(text: string) {
    forall i :: 0 <= i < |text| && text[i] == '$' ==> i + 1 < |text| && text[i + 1] != '$'
  }

  predicate SegmentOk(g: Segment) {
    match g
    case Plain(text) => text != "" && NoDollars(text) && '\'' !in text && ';' !in text
    case Literal(_) => true
    case Body(text) => NoDollars(text)
  }

  /** Literals may hold anything; two of them may not touch, which SQL reads as one. */
  predicate Written(gs: seq<Segment>) {
    && (forall i :: 0 <= i < |gs| ==> SegmentOk(gs[i]))
    && (forall i :: 0 <= i < |gs| - 1 ==> !(gs[i].Literal? && gs[i + 1].Literal?))
  }

  lemma {:induction false} ReadPlain(text: string, rest: string)
    requires NoDollars(text) && '\'' !in text && ';' !in text
    ensures Read(text + rest, Top) == Read(rest, Top)
    decreases |text|
  {
    if text == "" {
      assert text + rest == rest;
    } else {
      assert (text + rest)[1..] == text[1..] + rest;
      assert !Doubled(text + rest, '$');
      assert text[0] in text && forall c :: c in text[1..] ==> c in text;
      ReadPlain(text[1..], rest);
    }
  }

  lemma {:induction false} ReadBody(text: string, rest: string)
    requires NoDollars(text)
    ensures Read(text + ("$$" + rest), Dollar) == Read(rest, Top)
    decreases |text|
  {
    if text == "" {
      assert text + ("$$" + rest) == "$$" + rest && ("$$" + rest)[2..] == rest;
    } else {
      var s := text + ("$$" + rest);
      assert s[1..] == text[1..] + ("$$" + rest);
      assert !Doubled(s, '$');
      ReadBody(text[1..], rest);
    }
  }

  lemma {:induction false} ReadLiteral(value: string, rest: string)
    requires rest == "" || rest[0] != '\''
    ensures Read(Escape(value) + ("'" + rest), Single) == Read(rest, Top)
    decreases |value|
  {
    var tail := "'" + rest;
    var s := Escape(value) + tail;
    if value == "" {
      assert s == tail && tail[1..] == rest;
    } else if value[0] == '\'' {
      assert s[2..] == Escape(value[1..]) + tail;
      ReadLiteral(value[1..], rest);
    } else {
      assert s[1..] == Escape(value[1..]) + tail;
      ReadLiteral(value[1..], rest);
    }
  }

  lemma FirstOfRendered(gs: seq<Segment>)
    requires Written(gs) && gs != [] && !gs[0].Literal?
    ensures RenderAll(gs) != "" && RenderAll(gs)[0] != '\''
  {
    if gs[0].Plain? {
      assert gs[0].text[0] in gs[0].text;
    }
  }

  lemma ReadOpeners(rest: string)
    ensures Read("'" + rest, Top) == Read(rest, Single)
    ensures Read("$$" + rest, Top) == Read(rest, Dollar)
  {
    assert ("'" + rest)[1..] == rest && ("$$" + rest)[2..] == rest;
  }

  lemma RenderedBody(text: string, rest: string)
    ensures Render(Body(text)) + rest == "$$" + (text + ("$$" + rest))
  {
  }

  lemma RenderedLiteral(value: string, rest: string)
    ensures Render(Literal(value)) + rest == "'" + (Escape(value) + ("'" + rest))
  {
  }

  /** Reading a whole segment ends outside all quotes. */
  lemma ReadSegment(g: Segment, rest: string)
    requires SegmentOk(g) && (g.Literal? ==> rest == "" || rest[0] != '\'')
    ensures Read(Render(g) + rest, Top) == Read(rest, Top)
  {
    match g
    case Plain(text) => ReadPlain(text, rest);
    case Body(text) =>
      RenderedBody(text, rest);
      ReadOpeners(text + ("$$" + rest));
      ReadBody(text, rest);
    case Literal(value) =>
      RenderedLiteral(value, rest);
      ReadOpeners(Escape(value) + ("'" + rest));
      ReadLiteral(value, rest);
  }

  /** Whatever its literals and bodies contain, a statement written this way is closed. */
  lemma {:induction false} WrittenIsClosed(gs: seq<Segment>)
    requires Written(gs)
    ensures Closed(RenderAll(gs))
    decreases |gs|
  {
    if gs != [] {
      WrittenIsClosed(gs[1..]);
      if gs[0].Literal? && gs[1..] != [] { FirstOfRendered(gs[1..]); }
      ReadSegment(gs[0], RenderAll(gs[1..]));
    }
  }

  function RenderEach(statements: seq<seq<Segment>>): (r: seq<string>)
    ensures |r| == |statements|
    ensures forall i :: 0 <= i < |r| ==> r[i] == RenderAll(statements[i])
  {
    if statements == [] then [] else [RenderAll(statements[0])] + RenderEach(statements[1..])
  }

  /** A file of written statements, joined by semicolons, is split into exactly those statements:
      no semicolon inside a literal or a body splits one. */
  lemma WrittenFileRoundTrip(statements: seq<seq<Segment>>)
    requires forall i :: 0 <= i < |statements| ==>
               Written(statements[i]) && IsStatement(RenderAll(statements[i]))
    ensures Split(Join(RenderEach(statements))) == RenderEach(statements)
  {
    forall i | 0 <= i < |statements| ensures Closed(RenderAll(statements[i])) {
      WrittenIsClosed(statements[i]);
    }
    SplitJoinRoundTrip(RenderEach(statements));
  }
}
