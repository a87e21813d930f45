/** The tokenizer's rules as functions: which token starts at an offset of the source, how far
    it reaches, and the whole token list of a source. The class in tokenizer.dfy is proved to
    compute exactly these. */
module Lexer {
  import opened Positions
  import opened Dialects
  import opened Tokens

  /** The outcome of scanning one token at some offset: the token's kind and value and the
      offset just past it, or the error and the offset where the scanner gave up. */
  datatype Step = Lexed(kind: Kind, value: Value, end: nat) | Failed(error: ErrorKind, end: nat)

  /** The outcome of a whole scan: the tokens produced, the error that stopped it (if any) and
      the offset reached. */
  datatype Scan = Scan(tokens: seq<Token>, err: Option<ErrorKind>, stop: nat)

  predicate IsSpace(c: char) { c == ' ' }

  predicate IsTab(c: char) { c == '\t' }

  predicate IsWhitespace(c: char) { IsSpace(c) || IsTab(c) || IsLineBreak(c) }

  predicate NotLineBreak(c: char) { !IsLineBreak(c) }

  /** End of the longest run of characters satisfying p that starts at i. */
  function RunEnd(s: string, i: nat, p: char -> bool): (j: nat)
    requires i <= |s|
    ensures i <= j <= |s|
    ensures forall k :: i <= k < j ==> p(s[k])
    ensures j < |s| ==> !p(s[j])
    decreases |s| - i
  {
    if i < |s| && p(s[i]) then RunEnd(s, i + 1, p) else i
  }

  /** Offset of the first c at or after i, or |s| when there is none. */
  function FindChar(s: string, i: nat, c: char): (j: nat)
    requires i <= |s|
    ensures i <= j <= |s|
    ensures j < |s| ==> s[j] == c
    ensures forall k :: i <= k < j ==> s[k] != c
    decreases |s| - i
  {
    if i == |s| || s[i] == c then i else FindChar(s, i + 1, c)
  }

  /** A block comment's closing "*" "/" starts at k. */
  predicate IsCloseAt(s: string, k: nat)
    requires k < |s|
  {
    k + 1 < |s| && s[k] == '*' && s[k + 1] == '/'
  }

  /** Offset of the first comment close at or after i, or |s| when there is none. */
  function CommentClose(s: string, i: nat): (j: nat)
    requires i <= |s|
    ensures i <= j <= |s|
    ensures j < |s| ==> IsCloseAt(s, j)
    ensures forall k :: i <= k < j ==> !IsCloseAt(s, k)
    decreases |s| - i
  {
    if i == |s| || IsCloseAt(s, i) then i else CommentClose(s, i + 1)
  }

  /** Two whitespace characters of the same class: both line breaks, both spaces or both tabs. */
  predicate SameWhitespace(a: char, b: char) {
    (IsLineBreak(a) && IsLineBreak(b)) || (a == b && (a == ' ' || a == '\t'))
  }

  /** End of a run of whitespace of the same class as s[i]: spaces, tabs, or line breaks. */
  function WhitespaceEnd(s: string, i: nat): nat
    requires i < |s| && IsWhitespace(s[i])
  {
    if IsLineBreak(s[i]) then RunEnd(s, i, IsLineBreak)
    else if IsSpace(s[i]) then RunEnd(s, i, IsSpace)
    else RunEnd(s, i, IsTab)
  }

  /** A whitespace run is non-empty and maximal: every character in it is of the class of
      s[i], and the character after it is not. */
  lemma WhitespaceEndIsRun(s: string, i: nat)
    requires i < |s| && IsWhitespace(s[i])
    ensures i < WhitespaceEnd(s, i) <= |s|
    ensures forall k :: i <= k < WhitespaceEnd(s, i) ==> SameWhitespace(s[k], s[i])
    ensures WhitespaceEnd(s, i) == |s| || !SameWhitespace(s[WhitespaceEnd(s, i)], s[i])
  {
  }

  /** The value of a run of line breaks: one "\n" per line it starts ("\r\n" and "\r" alike). */
  function LineBreakText(s: string, i: nat, j: nat): (t: string)
    requires i <= j <= |s|
    ensures |t| == Breaks(s, i, j)
    ensures forall k :: 0 <= k < |t| ==> t[k] == '\n'
    decreases j - i
  {
    if i == j then "" else LineBreakText(s, i, j - 1) + (if IsBreakAt(s, j - 1) then "\n" else "")
  }

  predicate AllDigits(t: string) {
    t != [] && forall k :: 0 <= k < |t| ==> IsDigit(t[k])
  }

  /** A numeric literal: digits, optionally followed by '.' and more digits. */
  predicate IsNumeral(t: string) {
    AllDigits(t) || exists k :: 0 < k < |t| && t[k] == '.' && AllDigits(t[..k]) && AllDigits(t[k + 1..])
  }

  /** Digits in s[i..a], '.' at a and digits in s[a + 1..j] make a numeral. */
  lemma DecimalIsNumeral(s: string, i: nat, a: nat, j: nat)
    requires i < a && a + 1 < j <= |s| && s[a] == '.'
    requires forall k :: i <= k < a ==> IsDigit(s[k])
    requires forall k :: a < k < j ==> IsDigit(s[k])
    ensures IsNumeral(s[i..j])
  {
    var t := s[i..j];
    assert t[a - i] == '.';
    assert t[..a - i] == s[i..a];
    assert t[a - i + 1..] == s[a + 1..j];
  }

  /** End of a number: a run of digits, then '.' and a second run of digits if a digit follows
      the '.'. */
  function NumberEnd(s: string, i: nat): nat
    requires i <= |s|
  {
    var a := RunEnd(s, i, IsDigit);
    if a + 1 < |s| && s[a] == '.' && IsDigit(s[a + 1]) then RunEnd(s, a + 1, IsDigit) else a
  }

  /** What a number spans from a digit is a numeral, no digit follows it, and a '.' followed
      by a digit right after its digits is part of it. */
  lemma NumberEndIsNumeral(s: string, i: nat)
    requires i < |s| && IsDigit(s[i])
    ensures i < NumberEnd(s, i) <= |s| && IsNumeral(s[i..NumberEnd(s, i)])
    ensures NumberEnd(s, i) < |s| ==> !IsDigit(s[NumberEnd(s, i)])
    ensures var j := NumberEnd(s, i); j + 1 < |s| && s[j] == '.' && IsDigit(s[j + 1]) ==> '.' in s[i..j]
  {
    var a, j := RunEnd(s, i, IsDigit), NumberEnd(s, i);
    if j != a {
      DecimalIsNumeral(s, i, a, j);
      assert s[i..j][a - i] == '.';
    } else {
      assert AllDigits(s[i..a]);
    }
  }

  /** The operator or punctuation at s[i] and its length; two-character operators win over
      their one-character prefixes. */
  function Operator(s: string, i: nat): (r: Option<(Kind, nat)>)
    requires i < |s|
    ensures r.Some? ==> (r.value.1 == 1 || r.value.1 == 2) && i + r.value.1 <= |s|
  {
    var next := if i + 1 < |s| then s[i + 1] else s[i];
    var two := i + 1 < |s|;
    match s[i]
    case '<' =>
      if two && next == '=' then Some((LtEq, 2))
      else if two && next == '>' then Some((Neq, 2))
      else Some((Lt, 1))
    case '>' => if two && next == '=' then Some((GtEq, 2)) else Some((Gt, 1))
    case '!' => if two && next == '=' then Some((Neq, 2)) else None
    case ':' => if two && next == ':' then Some((DoubleColon, 2)) else Some((Colon, 1))
    case '=' => Some((Eq, 1))
    case '+' => Some((Plus, 1))
    case '-' => Some((Minus, 1))
    case '*' => Some((Mult, 1))
    case '/' => Some((Div, 1))
    case '%' => Some((Mod, 1))
    case ';' => Some((Semicolon, 1))
    case ',' => Some((Comma, 1))
    case '.' => Some((Period, 1))
    case '\\' => Some((Backslash, 1))
    case '(' => Some((LParen, 1))
    case ')' => Some((RParen, 1))
    case '[' => Some((LBracket, 1))
    case ']' => Some((RBracket, 1))
    case '{' => Some((LBrace, 1))
    case '}' => Some((RBrace, 1))
    case '&' => Some((Ampersand, 1))
    case _ => None
  }

  /** A word and its classification. */
  function MakeWord(d: Dialect, w: string, quote: Option<char>): SQLWord {
    SQLWord(w, Keyword(d, w), quote)
  }

  /** A word keeps its spelling and quote, and it has a keyword exactly when its upper-case
      form is a reserved word, the keyword being that form. */
  lemma MakeWordClassifies(d: Dialect, w: string, quote: Option<char>)
    ensures MakeWord(d, w, quote).value == w && MakeWord(d, w, quote).quoteStyle == quote
    ensures MakeWord(d, w, quote).keyword != "" <==> w != "" && ToUpper(w) in d.keywords
    ensures MakeWord(d, w, quote).keyword != "" ==> MakeWord(d, w, quote).keyword == ToUpper(w)
  {
  }

  /** s[i] and s[i + 1] start a national string literal. */
  predicate IsNationalStart(s: string, i: nat)
    requires i < |s|
  {
    (s[i] == 'N' || s[i] == 'n') && i + 1 < |s| && s[i + 1] == '\''
  }

  /** The token that starts at offset i, chosen by the character found there. */
  function Next(d: Dialect, s: string, i: nat): (r: Step)
    requires i < |s|
    ensures i <= r.end <= |s|
    ensures r.Lexed? ==> i < r.end
    ensures r.Failed? && r.error.InvalidCharacter? ==> r.end == i
  {
    var c := s[i];
    if IsWhitespace(c) then
      var j := WhitespaceEnd(s, i);
      Lexed(Whitespace, Str(if IsLineBreak(c) then LineBreakText(s, i, j) else s[i..j]), j)
    else if c == '\'' then
      var j := FindChar(s, i + 1, '\'');
      if j == |s| then Failed(UnterminatedString, |s|)
      else Lexed(SingleQuotedString, Str(s[i + 1..j]), j + 1)
    else if c == '"' then
      var j := FindChar(s, i + 1, '"');
      if j == |s| then Failed(UnterminatedQuotedIdentifier, |s|)
      else Lexed(SQLKeyword, Word(MakeWord(d, s[i + 1..j], Some('"'))), j + 1)
    else if IsNationalStart(s, i) then
      var j := FindChar(s, i + 2, '\'');
      if j == |s| then Failed(UnterminatedString, |s|)
      else Lexed(NationalStringLiteral, Str(s[i + 2..j]), j + 1)
    else if d.isIdentifierStart(c) then
      var j := RunEnd(s, i + 1, d.isIdentifierPart);
      Lexed(SQLKeyword, Word(MakeWord(d, s[i..j], None)), j)
    else if IsDigit(c) then
      var j := NumberEnd(s, i);
      Lexed(Number, Str(s[i..j]), j)
    else if c == '-' && i + 1 < |s| && s[i + 1] == '-' then
      var j := RunEnd(s, i + 2, NotLineBreak);
      Lexed(Comment, Str(s[i + 2..j]), j)
    else if c == '/' && i + 1 < |s| && s[i + 1] == '*' then
      var j := CommentClose(s, i + 2);
      if j == |s| then Failed(UnterminatedComment, |s|)
      else Lexed(Comment, Str(s[i + 2..j]), j + 2)
    else
      match Operator(s, i)
      case Some((k, n)) => Lexed(k, Str(s[i..i + n]), i + n)
      case None => Failed(InvalidCharacter(c), i)
  }

  /** A failed step either names the character at i, which starts no token and is not
      consumed, or gives up at the end of the input. */
  lemma NextFailure(d: Dialect, s: string, i: nat)
    requires i < |s| && Next(d, s, i).Failed?
    ensures Next(d, s, i).error.InvalidCharacter? ==> Next(d, s, i).error.c == s[i] && Next(d, s, i).end == i
    ensures !Next(d, s, i).error.InvalidCharacter? ==> Next(d, s, i).end == |s|
  {
  }

  /** The scan from offset i to the end of s, or to the first error. Tokens are positioned
      by the cursor over the whole of s. */
  function Lex(d: Dialect, s: string, i: nat): (r: Scan)
    requires i <= |s|
    ensures i <= r.stop <= |s|
    ensures r.err == None ==> r.stop == |s|
    decreases |s| - i
  {
    if i == |s| then Scan([], None, i)
    else match Next(d, s, i)
      case Failed(e, j) => Scan([], Some(e), j)
      case Lexed(k, v, j) =>
        var rest := Lex(d, s, j);
        Scan([Token(k, v, PosAt(s, i), PosAt(s, j))] + rest.tokens, rest.err, rest.stop)
  }

  /** The offsets at which the tokens of Lex(d, s, i) start, followed by the offset where the
      last one ends (or where the failing token starts). */
  function Cuts(d: Dialect, s: string, i: nat): (c: seq<nat>)
    requires i <= |s|
    ensures |c| >= 1 && c[0] == i
    ensures forall k :: 0 <= k < |c| ==> i <= c[k] <= |s|
    decreases |s| - i
  {
    if i == |s| then [i]
    else match Next(d, s, i)
      case Failed(_, _) => [i]
      case Lexed(_, _, j) => [i] + Cuts(d, s, j)
  }
}
