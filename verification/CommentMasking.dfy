/** Masking comments in place. The reference is a one-character-at-a-time automaton that says
    which characters belong to a comment; the nested scanning loops are proved against it. */
module CommentMasking {

  /** What the next character belongs to. `Opening` stands before the `*` of a block comment's
      opener and `Closing` before the `/` of its closer; `Escaped` follows a backslash. */
  datatype Mode = Code | Line | Opening | Block | Closing | Text(quote: char) | Escaped(quote: char)

  predicate IsQuote(c: char) { c == '"' || c == '\'' || c == '`' }

  /** `k` starts `a b`. */
  predicate Pair(text: string, k: nat, a: char, b: char) {
    k + 1 < |text| && text[k] == a && text[k + 1] == b
  }

  function Next(text: string, k: nat, mode: Mode): Mode
    requires k < |text|
  {
    var c := text[k];
    match mode
    case Code =>
      if Pair(text, k, '/', '/') then Line
      else if Pair(text, k, '/', '*') then Opening
      else if IsQuote(c) then Text(c) else Code
    case Line => if c == '\n' then Code else Line
    case Opening => Block
    case Block => if Pair(text, k, '*', '/') then Closing else Block
    case Closing => Code
    case Text(q) => if c == '\\' then Escaped(q) else if c == q then Code else mode
    case Escaped(q) => Text(q)
  }

  /** The mode in which character `k` is read. */
  function ModeAt(text: string, k: nat): Mode
    requires k <= |text|
  {
    if k == 0 then Code else Next(text, k - 1, ModeAt(text, k - 1))
  }

  /** Character `k` is part of a comment (a line comment ends before its newline). */
  predicate InComment(text: string, k: nat)
    requires k < |text|
  {
    match ModeAt(text, k)
    case Code => Pair(text, k, '/', '/') || Pair(text, k, '/', '*')
    case Line => text[k] != '\n'
    case Opening => true
    case Block => true
    case Closing => true
    case Text(_) => false
    case Escaped(_) => false
  }

  predicate InString(text: string, k: nat)
    requires k < |text|
  {
    var mode := ModeAt(text, k);
    mode.Text? || mode.Escaped? || (mode.Code? && IsQuote(text[k]))
  }

  function MaskedChar(text: string, k: nat): char
    requires k < |text|
  {
    if InComment(text, k) && text[k] != '\n' then ' ' else text[k]
  }

  /** The text with every comment character, newlines aside, turned into a space. */
  function Masked(text: string): (masked: string)
    ensures |masked| == |text|
    ensures forall k :: 0 <= k < |text| ==> masked[k] == MaskedChar(text, k)
  {
    seq(|text|, k requires 0 <= k < |text| => MaskedChar(text, k))
  }

  // ---- The scanner --------------------------------------------------------------------------

  /** Everything before `i` is masked, everything from `i` on untouched. */
  ghost predicate Progress(text: string, out: array<char>, i: nat)
    reads out
  {
    && out.Length == |text|
    && (forall k :: 0 <= k < |text| && k < i ==> out[k] == MaskedChar(text, k))
    && (forall k :: i <= k < |text| ==> out[k] == text[k])
  }

  method SkipLine(text: string, out: array<char>, start: nat) returns (i: nat)
    requires start < |text| && Pair(text, start, '/', '/')
    requires ModeAt(text, start) == Code && Progress(text, out, start)
    modifies out
    ensures start < i <= |text| && Progress(text, out, i)
    ensures i < |text| ==> ModeAt(text, i) == Line && text[i] == '\n'
  {
    i := start;
    while i < |text| && text[i] != '\n'
      invariant start <= i <= |text| && Progress(text, out, i)
      invariant i == start || ModeAt(text, i) == Line
    {
      out[i] := ' ';
      i := i + 1;
    }
  }

  method SkipBlock(text: string, out: array<char>, start: nat) returns (i: nat)
    requires Pair(text, start, '/', '*')
    requires ModeAt(text, start) == Code && Progress(text, out, start)
    modifies out
    ensures start < i <= |text| && Progress(text, out, i)
    ensures i < |text| ==> ModeAt(text, i) == Code
  {
    i := start;
    out[i] := ' ';
    i := i + 1;
    assert ModeAt(text, i) == Opening;
    out[i] := ' ';
    i := i + 1;
    while i < |text| && !(text[i] == '*' && i + 1 < |text| && text[i + 1] == '/')
      invariant start + 2 <= i <= |text| && Progress(text, out, i)
      invariant ModeAt(text, i) == Block
    {
      if text[i] != '\n' {
        out[i] := ' ';
      }
      i := i + 1;
    }
    if i < |text| {
      out[i] := ' ';
      i := i + 1;
      assert ModeAt(text, i) == Closing;
      out[i] := ' ';
      i := i + 1;
    }
  }

  /** Strings are stepped over; an escape at the very end steps past the text. */
  method SkipString(text: string, out: array<char>, start: nat) returns (i: nat)
    requires start < |text| && IsQuote(text[start])
    requires ModeAt(text, start) == Code && Progress(text, out, start)
    ensures start < i && Progress(text, out, i)
    ensures i < |text| ==> ModeAt(text, i) == Code
  {
    var quote := text[start];
    i := start + 1;
    assert ModeAt(text, i) == Text(quote);
    while i < |text|
      invariant start < i && Progress(text, out, i)
      invariant i <= |text| ==> ModeAt(text, i) == Text(quote)
    {
      if text[i] == '\\' {
        assert i + 1 < |text| ==> ModeAt(text, i + 1) == Escaped(quote);
        i := i + 2;
        continue;
      }
      if text[i] == quote {
        i := i + 1;
        break;
      }
      i := i + 1;
    }
  }

  /** Between two tokens of the scanner: reading code, or the newline that ends a line comment. */
  predicate BetweenTokens(text: string, i: nat) {
    i < |text| ==> ModeAt(text, i) == Code || (ModeAt(text, i) == Line && text[i] == '\n')
  }

  lemma PlainCharacter(text: string, i: nat)
    requires i < |text| && BetweenTokens(text, i) && !IsQuote(text[i])
    requires !Pair(text, i, '/', '/') && !Pair(text, i, '/', '*')
    ensures MaskedChar(text, i) == text[i] && BetweenTokens(text, i + 1)
  {
    assert i + 1 <= |text| ==> ModeAt(text, i + 1) == Code;
  }

  /** A comment or a string only starts where code is read. */
  lemma TokenStartsInCode(text: string, i: nat)
    requires i < |text| && BetweenTokens(text, i)
    requires Pair(text, i, '/', '/') || Pair(text, i, '/', '*') || IsQuote(text[i])
    ensures ModeAt(text, i) == Code
  {
  }

  lemma Untouched(text: string, out: array<char>, i: nat)
    requires Progress(text, out, i) && i < |text| && MaskedChar(text, i) == text[i]
    ensures Progress(text, out, i + 1)
  {
  }

  lemma WholeTextMasked(text: string, out: array<char>, i: nat)
    requires Progress(text, out, i) && i >= |text|
    ensures out[..] == Masked(text)
  {
  }

  method MaskComments(text: string) returns (masked: string)
    ensures masked == Masked(text)
  {
    var out := new char[|text|](k requires 0 <= k < |text| => text[k]);
    var i := 0;
    while i < |text|
      invariant Progress(text, out, i) && BetweenTokens(text, i)
      decreases |text| - i
    {
      if Pair(text, i, '/', '/') {
        TokenStartsInCode(text, i);
        i := SkipLine(text, out, i);
      } else if Pair(text, i, '/', '*') {
        TokenStartsInCode(text, i);
        i := SkipBlock(text, out, i);
      } else if IsQuote(text[i]) {
        TokenStartsInCode(text, i);
        i := SkipString(text, out, i);
      } else {
        PlainCharacter(text, i);
        Untouched(text, out, i);
        i := i + 1;
      }
    }
    WholeTextMasked(text, out, i);
    masked := out[..];
  }

  // ---- What masking preserves -----------------------------------------------------------------

  predicate IsCommentMode(mode: Mode) {
    mode.Line? || mode.Opening? || mode.Block? || mode.Closing?
  }

  /** Reading the masked text, the automaton runs as on the original but never enters a comment. */
  lemma {:induction false} MaskedModes(text: string, k: nat)
    requires k <= |text|
    ensures ModeAt(Masked(text), k) == if IsCommentMode(ModeAt(text, k)) then Code else ModeAt(text, k)
    decreases k
  {
    if k > 0 {
      MaskedModes(text, k - 1);
      NoNewPair(text, k - 1);
    }
  }

  /** Masking creates no comment opener next to a character of code. */
  lemma NoNewPair(text: string, k: nat)
    requires k < |text|
    ensures ModeAt(text, k) == Code || IsCommentMode(ModeAt(text, k)) ==>
              !Pair(Masked(text), k, '/', '/') && !Pair(Masked(text), k, '/', '*')
  {
    if k + 1 < |text| {
      assert Masked(text)[k] == MaskedChar(text, k) && Masked(text)[k + 1] == MaskedChar(text, k + 1);
    }
  }

  /** The output contains no comment at all, whatever was unterminated in the input. */
  lemma NoCommentsLeft(text: string, k: nat)
    requires k < |text|
    ensures !InComment(Masked(text), k)
  {
    MaskedModes(text, k);
    NoNewPair(text, k);
  }

  /** Masking again changes nothing. */
  lemma MaskingIsIdempotent(text: string)
    ensures Masked(Masked(text)) == Masked(text)
  {
    forall k | 0 <= k < |text| ensures Masked(Masked(text))[k] == Masked(text)[k] {
      NoCommentsLeft(text, k);
    }
  }

  /** Line structure and string literals survive: newlines stay where they are and no new ones
      appear, and a character is inside a string before masking exactly when it is after, unchanged. */
  lemma StructureIsKept(text: string, k: nat)
    requires k < |text|
    ensures Masked(text)[k] == '\n' <==> text[k] == '\n'
    ensures InString(Masked(text), k) <==> InString(text, k)
    ensures InString(text, k) ==> Masked(text)[k] == text[k]
  {
    MaskedModes(text, k);
  }
}
