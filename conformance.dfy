/** Evaluation of the tokenizer's rules on given characters, for any dialect that treats
    identifiers the way the generic SQL dialect does: ASCII letters start and continue a word,
    digits and '_' only continue one, and no whitespace, quote or operator character is part of
    a word. SELECT and NOT are reserved. Each lemma names the token found at an offset from the
    characters around it; the restated test cases are built from them. */
module Conformance {
  import opened Positions
  import opened Dialects
  import opened Tokens
  import opened Lexer

  /** Whitespace, quotes, and the characters operators and punctuation are made of. */
  predicate IsSymbol(c: char) {
    c == ' ' || c == '\t' || c == '\r' || c == '\n' || c == '\'' || c == '"' || c == '(' || c == ')' ||
    c == '[' || c == ']' || c == '{' || c == '}' || c == ',' || c == ';' || c == ':' || c == '.' ||
    c == '+' || c == '-' || c == '*' || c == '/' || c == '%' || c == '=' || c == '<' || c == '>' ||
    c == '!' || c == '\\' || c == '&'
  }

  predicate IsWordChar(c: char) {
    IsAsciiLetter(c) || IsDigit(c) || c == '_'
  }

  ghost predicate Conforms(d: Dialect) {
    (forall c :: IsAsciiLetter(c) ==> d.isIdentifierStart(c) && d.isIdentifierPart(c)) &&
    (forall c :: IsDigit(c) ==> !d.isIdentifierStart(c) && d.isIdentifierPart(c)) &&
    d.isIdentifierPart('_') &&
    (forall c :: IsSymbol(c) ==> !d.isIdentifierStart(c) && !d.isIdentifierPart(c)) &&
    "SELECT" in d.keywords && "NOT" in d.keywords
  }

  /** A dialect of exactly this kind: ASCII words, with SELECT and NOT reserved. */
  const ASCII_DIALECT: Dialect := Dialect(c => IsAsciiLetter(c), c => IsWordChar(c), {"SELECT", "NOT"})

  lemma AsciiDialectConforms()
    ensures Conforms(ASCII_DIALECT)
  {
  }

  /** A word that upper-cases to one of the reserved words has that keyword. */
  lemma KeywordOf(d: Dialect, w: string, k: string)
    requires Conforms(d) && (k == "SELECT" || k == "NOT")
    requires |w| == |k| && forall i :: 0 <= i < |w| ==> UpperChar(w[i]) == k[i]
    ensures Keyword(d, w) == k
  {
    assert ToUpper(w) == k;
  }

  /** The reserved words the test inputs use, spelled as they appear there. */
  lemma ReservedWords(d: Dialect)
    requires Conforms(d)
    ensures Keyword(d, "select") == "SELECT" && Keyword(d, "SELECT") == "SELECT" && Keyword(d, "NOT") == "NOT"
  {
    KeywordOf(d, "select", "SELECT");
    KeywordOf(d, "SELECT", "SELECT");
    KeywordOf(d, "NOT", "NOT");
  }

  lemma {:induction false} RunEndIs(s: string, i: nat, j: nat, p: char -> bool)
    requires i <= j <= |s|
    requires forall k :: i <= k < j ==> p(s[k])
    requires j == |s| || !p(s[j])
    ensures RunEnd(s, i, p) == j
    decreases j - i
  {
    if i < j {
      RunEndIs(s, i + 1, j, p);
    }
  }

  lemma {:induction false} FindCharIs(s: string, i: nat, j: nat, c: char)
    requires i <= j < |s| && s[j] == c
    requires forall k :: i <= k < j ==> s[k] != c
    ensures FindChar(s, i, c) == j
    decreases j - i
  {
    if i < j {
      FindCharIs(s, i + 1, j, c);
    }
  }

  lemma {:induction false} CommentCloseIs(s: string, i: nat, j: nat)
    requires i <= j < |s| && IsCloseAt(s, j)
    requires forall k :: i <= k < j ==> !IsCloseAt(s, k)
    ensures CommentClose(s, i) == j
    decreases j - i
  {
    if i < j {
      CommentCloseIs(s, i + 1, j);
    }
  }

  /** s[i..j] is a run of spaces. */
  lemma SpacesAt(d: Dialect, s: string, i: nat, j: nat)
    requires i < j <= |s| && (forall k :: i <= k < j ==> s[k] == ' ') && (j == |s| || s[j] != ' ')
    ensures Next(d, s, i) == Lexed(Whitespace, Str(s[i..j]), j)
  {
    RunEndIs(s, i, j, IsSpace);
  }

  /** s[i..j] is a run of tabs. */
  lemma TabsAt(d: Dialect, s: string, i: nat, j: nat)
    requires i < j <= |s| && (forall k :: i <= k < j ==> s[k] == '\t') && (j == |s| || s[j] != '\t')
    ensures Next(d, s, i) == Lexed(Whitespace, Str(s[i..j]), j)
  {
    RunEndIs(s, i, j, IsTab);
  }

  /** s[i..j] is a run of line breaks. */
  lemma LineBreaksAt(d: Dialect, s: string, i: nat, j: nat)
    requires i < j <= |s| && (forall k :: i <= k < j ==> IsLineBreak(s[k])) && (j == |s| || !IsLineBreak(s[j]))
    ensures Next(d, s, i) == Lexed(Whitespace, Str(LineBreakText(s, i, j)), j)
  {
    RunEndIs(s, i, j, IsLineBreak);
  }

  /** s[i..j] is a word: a letter, then letters, digits and '_', up to a symbol. */
  lemma WordAt(d: Dialect, s: string, i: nat, j: nat)
    requires Conforms(d) && i < j <= |s| && IsAsciiLetter(s[i])
    requires forall k :: i < k < j ==> IsWordChar(s[k])
    requires j == |s| || (IsSymbol(s[j]) && s[j] != '\'')
    ensures Next(d, s, i) == Lexed(SQLKeyword, Word(SQLWord(s[i..j], Keyword(d, s[i..j]), None)), j)
  {
    RunEndIs(s, i + 1, j, d.isIdentifierPart);
  }

  /** s[i..j] is a run of digits followed by neither a digit nor '.'. */
  lemma IntegerAt(d: Dialect, s: string, i: nat, j: nat)
    requires Conforms(d) && i < j <= |s|
    requires forall k :: i <= k < j ==> IsDigit(s[k])
    requires j == |s| || (!IsDigit(s[j]) && s[j] != '.')
    ensures Next(d, s, i) == Lexed(Number, Str(s[i..j]), j)
  {
    RunEndIs(s, i, j, IsDigit);
  }

  /** s[i..m] and s[m + 1..j] are runs of digits and s[m] is '.'. */
  lemma DecimalAt(d: Dialect, s: string, i: nat, m: nat, j: nat)
    requires Conforms(d) && i < m && m + 1 < j <= |s|
    requires forall k :: i <= k < m ==> IsDigit(s[k])
    requires s[m] == '.'
    requires forall k :: m < k < j ==> IsDigit(s[k])
    requires j == |s| || !IsDigit(s[j])
    ensures Next(d, s, i) == Lexed(Number, Str(s[i..j]), j)
  {
    RunEndIs(s, i, m, IsDigit);
    RunEndIs(s, m + 1, j, IsDigit);
  }

  /** An operator or punctuation symbol starts at s[i]; it does not start a comment. */
  lemma SymbolAt(d: Dialect, s: string, i: nat, k: Kind, n: nat)
    requires Conforms(d) && i < |s| && IsSymbol(s[i]) && !IsWhitespace(s[i]) && s[i] != '\'' && s[i] != '"'
    requires !(i + 1 < |s| && s[i] == '-' && s[i + 1] == '-')
    requires !(i + 1 < |s| && s[i] == '/' && s[i + 1] == '*')
    requires Operator(s, i) == Some((k, n))
    ensures Next(d, s, i) == Lexed(k, Str(s[i..i + n]), i + n)
  {
  }

  /** s[i..j] is a single-quoted string. */
  lemma SingleQuotedAt(d: Dialect, s: string, i: nat, j: nat)
    requires i + 1 < j <= |s| && s[i] == '\'' && s[j - 1] == '\''
    requires forall k :: i < k < j - 1 ==> s[k] != '\''
    ensures Next(d, s, i) == Lexed(SingleQuotedString, Str(s[i + 1..j - 1]), j)
  {
    FindCharIs(s, i + 1, j - 1, '\'');
  }

  /** s[i..j] is a national string literal, N'...'. */
  lemma NationalAt(d: Dialect, s: string, i: nat, j: nat)
    requires i + 2 < j <= |s| && (s[i] == 'N' || s[i] == 'n') && s[i + 1] == '\'' && s[j - 1] == '\''
    requires forall k :: i + 1 < k < j - 1 ==> s[k] != '\''
    ensures Next(d, s, i) == Lexed(NationalStringLiteral, Str(s[i + 2..j - 1]), j)
  {
    FindCharIs(s, i + 2, j - 1, '\'');
  }

  /** s[i..j] is a double-quoted word. */
  lemma DoubleQuotedAt(d: Dialect, s: string, i: nat, j: nat)
    requires i + 1 < j <= |s| && s[i] == '"' && s[j - 1] == '"'
    requires forall k :: i < k < j - 1 ==> s[k] != '"'
    ensures Next(d, s, i) ==
      Lexed(SQLKeyword, Word(SQLWord(s[i + 1..j - 1], Keyword(d, s[i + 1..j - 1]), Some('"'))), j)
  {
    FindCharIs(s, i + 1, j - 1, '"');
  }

  /** s[i..j] is a "--" comment running to a line break or the end. */
  lemma LineCommentAt(d: Dialect, s: string, i: nat, j: nat)
    requires Conforms(d) && i + 2 <= j <= |s| && s[i] == '-' && s[i + 1] == '-'
    requires forall k :: i + 2 <= k < j ==> !IsLineBreak(s[k])
    requires j == |s| || IsLineBreak(s[j])
    ensures Next(d, s, i) == Lexed(Comment, Str(s[i + 2..j]), j)
  {
    RunEndIs(s, i + 2, j, NotLineBreak);
  }

  /** s[i..j] is a block comment closed by its first star-slash. */
  lemma BlockCommentAt(d: Dialect, s: string, i: nat, j: nat)
    requires Conforms(d) && i + 4 <= j <= |s| && s[i] == '/' && s[i + 1] == '*' && IsCloseAt(s, j - 2)
    requires forall k :: i + 2 <= k < j - 2 ==> !IsCloseAt(s, k)
    ensures Next(d, s, i) == Lexed(Comment, Str(s[i + 2..j - 2]), j)
  {
    CommentCloseIs(s, i + 2, j - 2);
  }
}
