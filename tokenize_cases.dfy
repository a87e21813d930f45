/** The cases of TestTokenizer_Tokenize (sqltoken/tokenizer_test.go), restated: for every dialect
    that treats words as the generic dialect does, the scan of each input produces exactly the
    listed tokens, values and positions, and no error. By Tokenizer.Tokenize's contract these
    are the tokens the tokenizer object returns. Each case is proved by a chain of lemmas over
    any string spelled like the input, a few tokens at a time. */
module TokenizeCases {
  import opened Positions
  import opened Dialects
  import opened Tokens
  import opened Lexer
  import opened Conformance

  // The characters of " ".
  predicate TokenizeWhitespaceInput(s: string) {
    |s| == 1 && s[0] == ' '
  }

  lemma TokenizeWhitespaceCursor(s: string)
    requires TokenizeWhitespaceInput(s)
    ensures PosAt(s, 1) == Pos(1, 1)
  {
    PlainAdvance(s, 0, 1);
  }

  lemma TokenizeWhitespaceSteps(d: Dialect, s: string)
    requires Conforms(d) && TokenizeWhitespaceInput(s)
    ensures Next(d, s, 0) == Lexed(Whitespace, Str(" "), 1)
  {
    SpacesAt(d, s, 0, 1);
    assert s[0..1] == " ";
  }

  lemma TokenizeWhitespaceScan(d: Dialect, s: string)
    requires |s| == 1
    requires Next(d, s, 0) == Lexed(Whitespace, Str(" "), 1)
    requires PosAt(s, 0) == Pos(1, 0)
    requires PosAt(s, 1) == Pos(1, 1)
    ensures var r := Lex(d, s, 0);
      r.err == None &&
      |r.tokens| == 1 &&
      r.tokens[0] == Token(Whitespace, Str(" "), Pos(1, 0), Pos(1, 1))
  {
    assert Lex(d, s, 1) == Scan([], None, 1);
  }

  // Test case "whitespace" (sqltoken/tokenizer_test.go:22-32).
  lemma TokenizeWhitespace(d: Dialect)
    requires Conforms(d)
    ensures var r := Lex(d, " ", 0);
      r.err == None &&
      |r.tokens| == 1 &&
      r.tokens[0] == Token(Whitespace, Str(" "), Pos(1, 0), Pos(1, 1))
  {
    var s := " ";
    TokenizeWhitespaceCursor(s);
    TokenizeWhitespaceSteps(d, s);
    TokenizeWhitespaceScan(d, s);
  }

  // The characters of "\n ".
  predicate TokenizeWhitespaceAndNewLineInput(s: string) {
    |s| == 2 && s[0] == '\n' && s[1] == ' '
  }

  lemma TokenizeWhitespaceAndNewLineCursor(s: string)
    requires TokenizeWhitespaceAndNewLineInput(s)
    ensures PosAt(s, 1) == Pos(2, 0)
    ensures PosAt(s, 2) == Pos(2, 1)
  {
    BreakStartsLine(s, 0);
    PlainAdvance(s, 1, 2);
  }

  lemma TokenizeWhitespaceAndNewLineSteps(d: Dialect, s: string)
    requires Conforms(d) && TokenizeWhitespaceAndNewLineInput(s)
    ensures Next(d, s, 0) == Lexed(Whitespace, Str("\n"), 1)
    ensures Next(d, s, 1) == Lexed(Whitespace, Str(" "), 2)
  {
    LineBreaksAt(d, s, 0, 1);
    assert LineBreakText(s, 0, 1) == "\n";
    SpacesAt(d, s, 1, 2);
    assert s[1..2] == " ";
  }

  lemma TokenizeWhitespaceAndNewLineScan(d: Dialect, s: string)
    requires |s| == 2
    requires Next(d, s, 0) == Lexed(Whitespace, Str("\n"), 1)
    requires Next(d, s, 1) == Lexed(Whitespace, Str(" "), 2)
    requires PosAt(s, 0) == Pos(1, 0)
    requires PosAt(s, 1) == Pos(2, 0)
    requires PosAt(s, 2) == Pos(2, 1)
    ensures var r := Lex(d, s, 0);
      r.err == None &&
      |r.tokens| == 2 &&
      r.tokens[0] == Token(Whitespace, Str("\n"), Pos(1, 0), Pos(2, 0)) &&
      r.tokens[1] == Token(Whitespace, Str(" "), Pos(2, 0), Pos(2, 1))
  {
    assert Lex(d, s, 2) == Scan([], None, 2);
    assert Lex(d, s, 1).err == None;
  }

  // Test case "whitespace and new line" (sqltoken/tokenizer_test.go:33-51).
  lemma TokenizeWhitespaceAndNewLine(d: Dialect)
    requires Conforms(d)
    ensures var r := Lex(d, "\n ", 0);
      r.err == None &&
      |r.tokens| == 2 &&
      r.tokens[0] == Token(Whitespace, Str("\n"), Pos(1, 0), Pos(2, 0)) &&
      r.tokens[1] == Token(Whitespace, Str(" "), Pos(2, 0), Pos(2, 1))
  {
    var s := "\n ";
    TokenizeWhitespaceAndNewLineCursor(s);
    TokenizeWhitespaceAndNewLineSteps(d, s);
    TokenizeWhitespaceAndNewLineScan(d, s);
  }

  // The characters of "\r\n\t".
  predicate TokenizeWhitespaceAndTabInput(s: string) {
    |s| == 3 && s[0] == '\r' && s[1] == '\n' && s[2] == '\t'
  }

  lemma TokenizeWhitespaceAndTabCursor(s: string)
    requires TokenizeWhitespaceAndTabInput(s)
    ensures PosAt(s, 2) == Pos(2, 0)
    ensures PosAt(s, 3) == Pos(2, 4)
  {
    BreakStartsLine(s, 0);
    assert PosAt(s, 2) == PosAt(s, 1);
    assert PosAt(s, 3) == Pos(2, 4);
  }

  lemma TokenizeWhitespaceAndTabSteps(d: Dialect, s: string)
    requires Conforms(d) && TokenizeWhitespaceAndTabInput(s)
    ensures Next(d, s, 0) == Lexed(Whitespace, Str("\n"), 2)
    ensures Next(d, s, 2) == Lexed(Whitespace, Str("\t"), 3)
  {
    LineBreaksAt(d, s, 0, 2);
    assert LineBreakText(s, 0, 1) == "\n";
    assert LineBreakText(s, 0, 2) == "\n";
    TabsAt(d, s, 2, 3);
    assert s[2..3] == "\t";
  }

  lemma TokenizeWhitespaceAndTabScan(d: Dialect, s: string)
    requires |s| == 3
    requires Next(d, s, 0) == Lexed(Whitespace, Str("\n"), 2)
    requires Next(d, s, 2) == Lexed(Whitespace, Str("\t"), 3)
    requires PosAt(s, 0) == Pos(1, 0)
    requires PosAt(s, 2) == Pos(2, 0)
    requires PosAt(s, 3) == Pos(2, 4)
    ensures var r := Lex(d, s, 0);
      r.err == None &&
      |r.tokens| == 2 &&
      r.tokens[0] == Token(Whitespace, Str("\n"), Pos(1, 0), Pos(2, 0)) &&
      r.tokens[1] == Token(Whitespace, Str("\t"), Pos(2, 0), Pos(2, 4))
  {
    assert Lex(d, s, 3) == Scan([], None, 3);
    assert Lex(d, s, 2).err == None;
  }

  // Test case "whitespace and tab" (sqltoken/tokenizer_test.go:52-69).
  lemma TokenizeWhitespaceAndTab(d: Dialect)
    requires Conforms(d)
    ensures var r := Lex(d, "\r\n\t", 0);
      r.err == None &&
      |r.tokens| == 2 &&
      r.tokens[0] == Token(Whitespace, Str("\n"), Pos(1, 0), Pos(2, 0)) &&
      r.tokens[1] == Token(Whitespace, Str("\t"), Pos(2, 0), Pos(2, 4))
  {
    var s := "\r\n\t";
    TokenizeWhitespaceAndTabCursor(s);
    TokenizeWhitespaceAndTabSteps(d, s);
    TokenizeWhitespaceAndTabScan(d, s);
  }

  // The characters of "N'string'".
  predicate TokenizeNationalStringInput(s: string) {
    |s| == 9 && s[0] == 'N' && s[1] == '\'' && s[2] == 's' && s[3] == 't' && s[4] == 'r' &&
      s[5] == 'i' && s[6] == 'n' && s[7] == 'g' && s[8] == '\''
  }

  lemma TokenizeNationalStringCursor(s: string)
    requires TokenizeNationalStringInput(s)
    ensures PosAt(s, 9) == Pos(1, 9)
  {
    PlainAdvance(s, 0, 9);
  }

  lemma TokenizeNationalStringSteps(d: Dialect, s: string)
    requires Conforms(d) && TokenizeNationalStringInput(s)
    ensures Next(d, s, 0) == Lexed(NationalStringLiteral, Str("string"), 9)
  {
    NationalAt(d, s, 0, 9);
    assert s[2..8] == "string";
  }

  lemma TokenizeNationalStringScan(d: Dialect, s: string)
    requires |s| == 9
    requires Next(d, s, 0) == Lexed(NationalStringLiteral, Str("string"), 9)
    requires PosAt(s, 0) == Pos(1, 0)
    requires PosAt(s, 9) == Pos(1, 9)
    ensures var r := Lex(d, s, 0);
      r.err == None &&
      |r.tokens| == 1 &&
      r.tokens[0] == Token(NationalStringLiteral, Str("string"), Pos(1, 0), Pos(1, 9))
  {
    assert Lex(d, s, 9) == Scan([], None, 9);
  }

  // Test case "N string" (sqltoken/tokenizer_test.go:70-81).
  lemma TokenizeNationalString(d: Dialect)
    requires Conforms(d)
    ensures var r := Lex(d, "N'string'", 0);
      r.err == None &&
      |r.tokens| == 1 &&
      r.tokens[0] == Token(NationalStringLiteral, Str("string"), Pos(1, 0), Pos(1, 9))
  {
    var s := "N'string'";
    TokenizeNationalStringCursor(s);
    TokenizeNationalStringSteps(d, s);
    TokenizeNationalStringScan(d, s);
  }

  // The characters of "N'string' NOT".
  predicate TokenizeNationalStringWithKeywordInput(s: string) {
    |s| == 13 && s[0] == 'N' && s[1] == '\'' && s[2] == 's' && s[3] == 't' && s[4] == 'r' &&
      s[5] == 'i' && s[6] == 'n' && s[7] == 'g' && s[8] == '\'' && s[9] == ' ' && s[10] == 'N' &&
      s[11] == 'O' && s[12] == 'T'
  }

  lemma TokenizeNationalStringWithKeywordCursor(s: string)
    requires TokenizeNationalStringWithKeywordInput(s)
    ensures PosAt(s, 9) == Pos(1, 9)
    ensures PosAt(s, 10) == Pos(1, 10)
    ensures PosAt(s, 13) == Pos(1, 13)
  {
    PlainAdvance(s, 0, 9);
    PlainAdvance(s, 9, 10);
    PlainAdvance(s, 10, 13);
  }

  lemma TokenizeNationalStringWithKeywordStepsFrom0(d: Dialect, s: string)
    requires Conforms(d) && TokenizeNationalStringWithKeywordInput(s)
    ensures Next(d, s, 0) == Lexed(NationalStringLiteral, Str("string"), 9)
  {
    NationalAt(d, s, 0, 9);
    assert s[2..8] == "string";
  }

  lemma TokenizeNationalStringWithKeywordStepsFrom9(d: Dialect, s: string)
    requires Conforms(d) && TokenizeNationalStringWithKeywordInput(s)
    ensures Next(d, s, 9) == Lexed(Whitespace, Str(" "), 10)
    ensures Next(d, s, 10) == Lexed(SQLKeyword, Word(SQLWord("NOT", "NOT", None)), 13)
  {
    SpacesAt(d, s, 9, 10);
    assert s[9..10] == " ";
    WordAt(d, s, 10, 13);
    assert s[10..13] == "NOT";
    ReservedWords(d);
  }

  lemma TokenizeNationalStringWithKeywordScan(d: Dialect, s: string)
    requires |s| == 13
    requires Next(d, s, 0) == Lexed(NationalStringLiteral, Str("string"), 9)
    requires Next(d, s, 9) == Lexed(Whitespace, Str(" "), 10)
    requires Next(d, s, 10) == Lexed(SQLKeyword, Word(SQLWord("NOT", "NOT", None)), 13)
    requires PosAt(s, 0) == Pos(1, 0)
    requires PosAt(s, 9) == Pos(1, 9)
    requires PosAt(s, 10) == Pos(1, 10)
    requires PosAt(s, 13) == Pos(1, 13)
    ensures var r := Lex(d, s, 0);
      r.err == None &&
      |r.tokens| == 3 &&
      r.tokens[0] == Token(NationalStringLiteral, Str("string"), Pos(1, 0), Pos(1, 9)) &&
      r.tokens[1] == Token(Whitespace, Str(" "), Pos(1, 9), Pos(1, 10)) &&
      r.tokens[2] == Token(SQLKeyword, Word(SQLWord("NOT", "NOT", None)), Pos(1, 10), Pos(1, 13))
  {
    assert Lex(d, s, 13) == Scan([], None, 13);
    assert Lex(d, s, 10).err == None;
    assert Lex(d, s, 9).err == None;
  }

  // Test case "N string with keyword" (sqltoken/tokenizer_test.go:82-108).
  // The input is written in pieces of at most 12 characters, which keeps the solver's work small.
  lemma TokenizeNationalStringWithKeyword(d: Dialect)
    requires Conforms(d)
    ensures var r := Lex(d, "N'string' NO" + "T", 0);
      r.err == None &&
      |r.tokens| == 3 &&
      r.tokens[0] == Token(NationalStringLiteral, Str("string"), Pos(1, 0), Pos(1, 9)) &&
      r.tokens[1] == Token(Whitespace, Str(" "), Pos(1, 9), Pos(1, 10)) &&
      r.tokens[2] == Token(SQLKeyword, Word(SQLWord("NOT", "NOT", None)), Pos(1, 10), Pos(1, 13))
  {
    var s := "N'string' NO" + "T";
    TokenizeNationalStringWithKeywordCursor(s);
    TokenizeNationalStringWithKeywordStepsFrom0(d, s);
    TokenizeNationalStringWithKeywordStepsFrom9(d, s);
    TokenizeNationalStringWithKeywordScan(d, s);
  }

  // The characters of "select".
  predicate TokenizeIdentInput(s: string) {
    |s| == 6 && s[0] == 's' && s[1] == 'e' && s[2] == 'l' && s[3] == 'e' && s[4] == 'c' &&
      s[5] == 't'
  }

  lemma TokenizeIdentCursor(s: string)
    requires TokenizeIdentInput(s)
    ensures PosAt(s, 6) == Pos(1, 6)
  {
    PlainAdvance(s, 0, 6);
  }

  lemma TokenizeIdentSteps(d: Dialect, s: string)
    requires Conforms(d) && TokenizeIdentInput(s)
    ensures Next(d, s, 0) == Lexed(SQLKeyword, Word(SQLWord("select", "SELECT", None)), 6)
  {
    WordAt(d, s, 0, 6);
    assert s[0..6] == "select";
    ReservedWords(d);
  }

  lemma TokenizeIdentScan(d: Dialect, s: string)
    requires |s| == 6
    requires Next(d, s, 0) == Lexed(SQLKeyword, Word(SQLWord("select", "SELECT", None)), 6)
    requires PosAt(s, 0) == Pos(1, 0)
    requires PosAt(s, 6) == Pos(1, 6)
    ensures var r := Lex(d, s, 0);
      r.err == None &&
      |r.tokens| == 1 &&
      r.tokens[0] == Token(SQLKeyword, Word(SQLWord("select", "SELECT", None)), Pos(1, 0), Pos(1, 6))
  {
    assert Lex(d, s, 6) == Scan([], None, 6);
  }

  // Test case "Ident" (sqltoken/tokenizer_test.go:109-123).
  lemma TokenizeIdent(d: Dialect)
    requires Conforms(d)
    ensures var r := Lex(d, "select", 0);
      r.err == None &&
      |r.tokens| == 1 &&
      r.tokens[0] == Token(SQLKeyword, Word(SQLWord("select", "SELECT", None)), Pos(1, 0), Pos(1, 6))
  {
    var s := "select";
    TokenizeIdentCursor(s);
    TokenizeIdentSteps(d, s);
    TokenizeIdentScan(d, s);
  }

  // The characters of "'test'".
  predicate TokenizeSingleQuoteStringInput(s: string) {
    |s| == 6 && s[0] == '\'' && s[1] == 't' && s[2] == 'e' && s[3] == 's' && s[4] == 't' &&
      s[5] == '\''
  }

  lemma TokenizeSingleQuoteStringCursor(s: string)
    requires TokenizeSingleQuoteStringInput(s)
    ensures PosAt(s, 6) == Pos(1, 6)
  {
    PlainAdvance(s, 0, 6);
  }

  lemma TokenizeSingleQuoteStringSteps(d: Dialect, s: string)
    requires Conforms(d) && TokenizeSingleQuoteStringInput(s)
    ensures Next(d, s, 0) == Lexed(SingleQuotedString, Str("test"), 6)
  {
    SingleQuotedAt(d, s, 0, 6);
    assert s[1..5] == "test";
  }

  lemma TokenizeSingleQuoteStringScan(d: Dialect, s: string)
    requires |s| == 6
    requires Next(d, s, 0) == Lexed(SingleQuotedString, Str("test"), 6)
    requires PosAt(s, 0) == Pos(1, 0)
    requires PosAt(s, 6) == Pos(1, 6)
    ensures var r := Lex(d, s, 0);
      r.err == None &&
      |r.tokens| == 1 &&
      r.tokens[0] == Token(SingleQuotedString, Str("test"), Pos(1, 0), Pos(1, 6))
  {
    assert Lex(d, s, 6) == Scan([], None, 6);
  }

  // Test case "single quote string" (sqltoken/tokenizer_test.go:124-135).
  lemma TokenizeSingleQuoteString(d: Dialect)
    requires Conforms(d)
    ensures var r := Lex(d, "'test'", 0);
      r.err == None &&
      |r.tokens| == 1 &&
      r.tokens[0] == Token(SingleQuotedString, Str("test"), Pos(1, 0), Pos(1, 6))
  {
    var s := "'test'";
    TokenizeSingleQuoteStringCursor(s);
    TokenizeSingleQuoteStringSteps(d, s);
    TokenizeSingleQuoteStringScan(d, s);
  }

  // The characters of "\"SELECT\"".
  predicate TokenizeQuotedStringInput(s: string) {
    |s| == 8 && s[0] == '"' && s[1] == 'S' && s[2] == 'E' && s[3] == 'L' && s[4] == 'E' &&
      s[5] == 'C' && s[6] == 'T' && s[7] == '"'
  }

  lemma TokenizeQuotedStringCursor(s: string)
    requires TokenizeQuotedStringInput(s)
    ensures PosAt(s, 8) == Pos(1, 8)
  {
    PlainAdvance(s, 0, 8);
  }

  lemma TokenizeQuotedStringSteps(d: Dialect, s: string)
    requires Conforms(d) && TokenizeQuotedStringInput(s)
    ensures Next(d, s, 0) == Lexed(SQLKeyword, Word(SQLWord("SELECT", "SELECT", Some('"'))), 8)
  {
    DoubleQuotedAt(d, s, 0, 8);
    assert s[1..7] == "SELECT";
    ReservedWords(d);
  }

  lemma TokenizeQuotedStringScan(d: Dialect, s: string)
    requires |s| == 8
    requires Next(d, s, 0) == Lexed(SQLKeyword, Word(SQLWord("SELECT", "SELECT", Some('"'))), 8)
    requires PosAt(s, 0) == Pos(1, 0)
    requires PosAt(s, 8) == Pos(1, 8)
    ensures var r := Lex(d, s, 0);
      r.err == None &&
      |r.tokens| == 1 &&
      r.tokens[0] == Token(SQLKeyword, Word(SQLWord("SELECT", "SELECT", Some('"'))), Pos(1, 0), Pos(1, 8))
  {
    assert Lex(d, s, 8) == Scan([], None, 8);
  }

  // Test case "quoted string" (sqltoken/tokenizer_test.go:136-151).
  lemma TokenizeQuotedString(d: Dialect)
    requires Conforms(d)
    ensures var r := Lex(d, "\"SELECT\"", 0);
      r.err == None &&
      |r.tokens| == 1 &&
      r.tokens[0] == Token(SQLKeyword, Word(SQLWord("SELECT", "SELECT", Some('"'))), Pos(1, 0), Pos(1, 8))
  {
    var s := "\"SELECT\"";
    TokenizeQuotedStringCursor(s);
    TokenizeQuotedStringSteps(d, s);
    TokenizeQuotedStringScan(d, s);
  }

  // The characters of "(123),".
  predicate TokenizeParentsWithNumberInput(s: string) {
    |s| == 6 && s[0] == '(' && s[1] == '1' && s[2] == '2' && s[3] == '3' && s[4] == ')' &&
      s[5] == ','
  }

  lemma TokenizeParentsWithNumberCursor(s: string)
    requires TokenizeParentsWithNumberInput(s)
    ensures PosAt(s, 1) == Pos(1, 1)
    ensures PosAt(s, 4) == Pos(1, 4)
    ensures PosAt(s, 5) == Pos(1, 5)
    ensures PosAt(s, 6) == Pos(1, 6)
  {
    PlainAdvance(s, 0, 1);
    PlainAdvance(s, 1, 4);
    PlainAdvance(s, 4, 5);
    PlainAdvance(s, 5, 6);
  }

  lemma TokenizeParentsWithNumberStepsFrom0(d: Dialect, s: string)
    requires Conforms(d) && TokenizeParentsWithNumberInput(s)
    ensures Next(d, s, 0) == Lexed(LParen, Str("("), 1)
    ensures Next(d, s, 1) == Lexed(Number, Str("123"), 4)
  {
    SymbolAt(d, s, 0, LParen, 1);
    assert s[0..1] == "(";
    IntegerAt(d, s, 1, 4);
    assert s[1..4] == "123";
  }

  lemma TokenizeParentsWithNumberStepsFrom4(d: Dialect, s: string)
    requires Conforms(d) && TokenizeParentsWithNumberInput(s)
    ensures Next(d, s, 4) == Lexed(RParen, Str(")"), 5)
    ensures Next(d, s, 5) == Lexed(Comma, Str(","), 6)
  {
    SymbolAt(d, s, 4, RParen, 1);
    assert s[4..5] == ")";
    SymbolAt(d, s, 5, Comma, 1);
    assert s[5..6] == ",";
  }

  lemma TokenizeParentsWithNumberScan(d: Dialect, s: string)
    requires |s| == 6
    requires Next(d, s, 0) == Lexed(LParen, Str("("), 1)
    requires Next(d, s, 1) == Lexed(Number, Str("123"), 4)
    requires Next(d, s, 4) == Lexed(RParen, Str(")"), 5)
    requires Next(d, s, 5) == Lexed(Comma, Str(","), 6)
    requires PosAt(s, 0) == Pos(1, 0)
    requires PosAt(s, 1) == Pos(1, 1)
    requires PosAt(s, 4) == Pos(1, 4)
    requires PosAt(s, 5) == Pos(1, 5)
    requires PosAt(s, 6) == Pos(1, 6)
    ensures var r := Lex(d, s, 0);
      r.err == None &&
      |r.tokens| == 4 &&
      r.tokens[0] == Token(LParen, Str("("), Pos(1, 0), Pos(1, 1)) &&
      r.tokens[1] == Token(Number, Str("123"), Pos(1, 1), Pos(1, 4)) &&
      r.tokens[2] == Token(RParen, Str(")"), Pos(1, 4), Pos(1, 5)) &&
      r.tokens[3] == Token(Comma, Str(","), Pos(1, 5), Pos(1, 6))
  {
    assert Lex(d, s, 6) == Scan([], None, 6);
    assert Lex(d, s, 5).err == None;
    assert Lex(d, s, 4).err == None;
    assert Lex(d, s, 1).err == None;
  }

  // Test case "parents with number" (sqltoken/tokenizer_test.go:152-181).
  lemma TokenizeParentsWithNumber(d: Dialect)
    requires Conforms(d)
    ensures var r := Lex(d, "(123),", 0);
      r.err == None &&
      |r.tokens| == 4 &&
      r.tokens[0] == Token(LParen, Str("("), Pos(1, 0), Pos(1, 1)) &&
      r.tokens[1] == Token(Number, Str("123"), Pos(1, 1), Pos(1, 4)) &&
      r.tokens[2] == Token(RParen, Str(")"), Pos(1, 4), Pos(1, 5)) &&
      r.tokens[3] == Token(Comma, Str(","), Pos(1, 5), Pos(1, 6))
  {
    var s := "(123),";
    TokenizeParentsWithNumberCursor(s);
    TokenizeParentsWithNumberStepsFrom0(d, s);
    TokenizeParentsWithNumberStepsFrom4(d, s);
    TokenizeParentsWithNumberScan(d, s);
  }

  // The characters of "-- test".
  predicate TokenizeMinusCommentInput(s: string) {
    |s| == 7 && s[0] == '-' && s[1] == '-' && s[2] == ' ' && s[3] == 't' && s[4] == 'e' &&
      s[5] == 's' && s[6] == 't'
  }

  lemma TokenizeMinusCommentCursor(s: string)
    requires TokenizeMinusCommentInput(s)
    ensures PosAt(s, 7) == Pos(1, 7)
  {
    PlainAdvance(s, 0, 7);
  }

  lemma TokenizeMinusCommentSteps(d: Dialect, s: string)
    requires Conforms(d) && TokenizeMinusCommentInput(s)
    ensures Next(d, s, 0) == Lexed(Comment, Str(" test"), 7)
  {
    LineCommentAt(d, s, 0, 7);
    assert s[2..7] == " test";
  }

  lemma TokenizeMinusCommentScan(d: Dialect, s: string)
    requires |s| == 7
    requires Next(d, s, 0) == Lexed(Comment, Str(" test"), 7)
    requires PosAt(s, 0) == Pos(1, 0)
    requires PosAt(s, 7) == Pos(1, 7)
    ensures var r := Lex(d, s, 0);
      r.err == None &&
      |r.tokens| == 1 &&
      r.tokens[0] == Token(Comment, Str(" test"), Pos(1, 0), Pos(1, 7))
  {
    assert Lex(d, s, 7) == Scan([], None, 7);
  }

  // Test case "minus comment" (sqltoken/tokenizer_test.go:182-193).
  lemma TokenizeMinusComment(d: Dialect)
    requires Conforms(d)
    ensures var r := Lex(d, "-- test", 0);
      r.err == None &&
      |r.tokens| == 1 &&
      r.tokens[0] == Token(Comment, Str(" test"), Pos(1, 0), Pos(1, 7))
  {
    var s := "-- test";
    TokenizeMinusCommentCursor(s);
    TokenizeMinusCommentSteps(d, s);
    TokenizeMinusCommentScan(d, s);
  }

  // The characters of "1-3".
  predicate TokenizeMinusOperatorInput(s: string) {
    |s| == 3 && s[0] == '1' && s[1] == '-' && s[2] == '3'
  }

  lemma TokenizeMinusOperatorCursor(s: string)
    requires TokenizeMinusOperatorInput(s)
    ensures PosAt(s, 1) == Pos(1, 1)
    ensures PosAt(s, 2) == Pos(1, 2)
    ensures PosAt(s, 3) == Pos(1, 3)
  {
    PlainAdvance(s, 0, 1);
    PlainAdvance(s, 1, 2);
    PlainAdvance(s, 2, 3);
  }

  lemma TokenizeMinusOperatorStepsFrom0(d: Dialect, s: string)
    requires Conforms(d) && TokenizeMinusOperatorInput(s)
    ensures Next(d, s, 0) == Lexed(Number, Str("1"), 1)
    ensures Next(d, s, 1) == Lexed(Minus, Str("-"), 2)
  {
    IntegerAt(d, s, 0, 1);
    assert s[0..1] == "1";
    SymbolAt(d, s, 1, Minus, 1);
    assert s[1..2] == "-";
  }

  lemma TokenizeMinusOperatorStepsFrom2(d: Dialect, s: string)
    requires Conforms(d) && TokenizeMinusOperatorInput(s)
    ensures Next(d, s, 2) == Lexed(Number, Str("3"), 3)
  {
    IntegerAt(d, s, 2, 3);
    assert s[2..3] == "3";
  }

  lemma TokenizeMinusOperatorScan(d: Dialect, s: string)
    requires |s| == 3
    requires Next(d, s, 0) == Lexed(Number, Str("1"), 1)
    requires Next(d, s, 1) == Lexed(Minus, Str("-"), 2)
    requires Next(d, s, 2) == Lexed(Number, Str("3"), 3)
    requires PosAt(s, 0) == Pos(1, 0)
    requires PosAt(s, 1) == Pos(1, 1)
    requires PosAt(s, 2) == Pos(1, 2)
    requires PosAt(s, 3) == Pos(1, 3)
    ensures var r := Lex(d, s, 0);
      r.err == None &&
      |r.tokens| == 3 &&
      r.tokens[0] == Token(Number, Str("1"), Pos(1, 0), Pos(1, 1)) &&
      r.tokens[1] == Token(Minus, Str("-"), Pos(1, 1), Pos(1, 2)) &&
      r.tokens[2] == Token(Number, Str("3"), Pos(1, 2), Pos(1, 3))
  {
    assert Lex(d, s, 3) == Scan([], None, 3);
    assert Lex(d, s, 2).err == None;
    assert Lex(d, s, 1).err == None;
  }

  // Test case "minus operator" (sqltoken/tokenizer_test.go:194-217).
  lemma TokenizeMinusOperator(d: Dialect)
    requires Conforms(d)
    ensures var r := Lex(d, "1-3", 0);
      r.err == None &&
      |r.tokens| == 3 &&
      r.tokens[0] == Token(Number, Str("1"), Pos(1, 0), Pos(1, 1)) &&
      r.tokens[1] == Token(Minus, Str("-"), Pos(1, 1), Pos(1, 2)) &&
      r.tokens[2] == Token(Number, Str("3"), Pos(1, 2), Pos(1, 3))
  {
    var s := "1-3";
    TokenizeMinusOperatorCursor(s);
    TokenizeMinusOperatorStepsFrom0(d, s);
    TokenizeMinusOperatorStepsFrom2(d, s);
    TokenizeMinusOperatorScan(d, s);
  }

  // The characters of "/* test\nmultiline\ncomment */".
  predicate TokenizeBlockCommentInput(s: string) {
    |s| == 28 && s[0] == '/' && s[1] == '*' && s[2] == ' ' && s[3] == 't' && s[4] == 'e' &&
      s[5] == 's' && s[6] == 't' && s[7] == '\n' && s[8] == 'm' && s[9] == 'u' && s[10] == 'l' &&
      s[11] == 't' && s[12] == 'i' && s[13] == 'l' && s[14] == 'i' && s[15] == 'n' &&
      s[16] == 'e' && s[17] == '\n' && s[18] == 'c' && s[19] == 'o' && s[20] == 'm' &&
      s[21] == 'm' && s[22] == 'e' && s[23] == 'n' && s[24] == 't' && s[25] == ' ' &&
      s[26] == '*' && s[27] == '/'
  }

  lemma TokenizeBlockCommentCursor(s: string)
    requires TokenizeBlockCommentInput(s)
    ensures PosAt(s, 28) == Pos(3, 10)
  {
    PlainAdvance(s, 0, 7);
    BreakStartsLine(s, 7);
    PlainAdvance(s, 8, 17);
    BreakStartsLine(s, 17);
    PlainAdvance(s, 18, 28);
  }

  lemma TokenizeBlockCommentSteps(d: Dialect, s: string)
    requires Conforms(d) && TokenizeBlockCommentInput(s)
    ensures Next(d, s, 0) == Lexed(Comment, Str(" test\nmultiline\ncomment "), 28)
  {
    BlockCommentAt(d, s, 0, 28);
    assert s[2..26] == " test\nmultiline\ncomment ";
  }

  lemma TokenizeBlockCommentScan(d: Dialect, s: string)
    requires |s| == 28
    requires Next(d, s, 0) == Lexed(Comment, Str(" test\nmultiline\ncomment "), 28)
    requires PosAt(s, 0) == Pos(1, 0)
    requires PosAt(s, 28) == Pos(3, 10)
    ensures var r := Lex(d, s, 0);
      r.err == None &&
      |r.tokens| == 1 &&
      r.tokens[0] == Token(Comment, Str(" test\nmultiline\ncomment "), Pos(1, 0), Pos(3, 10))
  {
    assert Lex(d, s, 28) == Scan([], None, 28);
  }

  // Test case "/* comment" (sqltoken/tokenizer_test.go:218-231).
  // The input is written in pieces of at most 12 characters, which keeps the solver's work small.
  lemma TokenizeBlockComment(d: Dialect)
    requires Conforms(d)
    ensures var r := Lex(d, "/* test\nmult" + "iline\ncommen" + "t */", 0);
      r.err == None &&
      |r.tokens| == 1 &&
      r.tokens[0] == Token(Comment, Str(" test\nmultiline\ncomment "), Pos(1, 0), Pos(3, 10))
  {
    var s := "/* test\nmult" + "iline\ncommen" + "t */";
    TokenizeBlockCommentCursor(s);
    TokenizeBlockCommentSteps(d, s);
    TokenizeBlockCommentScan(d, s);
  }

  // The characters of "1/1*1+1%1=1.1-.".
  predicate TokenizeOperatorsInput(s: string) {
    |s| == 15 && s[0] == '1' && s[1] == '/' && s[2] == '1' && s[3] == '*' && s[4] == '1' &&
      s[5] == '+' && s[6] == '1' && s[7] == '%' && s[8] == '1' && s[9] == '=' && s[10] == '1' &&
      s[11] == '.' && s[12] == '1' && s[13] == '-' && s[14] == '.'
  }

  lemma TokenizeOperatorsCursor(s: string)
    requires TokenizeOperatorsInput(s)
    ensures PosAt(s, 1) == Pos(1, 1)
    ensures PosAt(s, 2) == Pos(1, 2)
    ensures PosAt(s, 3) == Pos(1, 3)
    ensures PosAt(s, 4) == Pos(1, 4)
    ensures PosAt(s, 5) == Pos(1, 5)
    ensures PosAt(s, 6) == Pos(1, 6)
    ensures PosAt(s, 7) == Pos(1, 7)
    ensures PosAt(s, 8) == Pos(1, 8)
    ensures PosAt(s, 9) == Pos(1, 9)
    ensures PosAt(s, 10) == Pos(1, 10)
    ensures PosAt(s, 13) == Pos(1, 13)
    ensures PosAt(s, 14) == Pos(1, 14)
    ensures PosAt(s, 15) == Pos(1, 15)
  {
    PlainAdvance(s, 0, 1);
    PlainAdvance(s, 1, 2);
    PlainAdvance(s, 2, 3);
    PlainAdvance(s, 3, 4);
    PlainAdvance(s, 4, 5);
    PlainAdvance(s, 5, 6);
    PlainAdvance(s, 6, 7);
    PlainAdvance(s, 7, 8);
    PlainAdvance(s, 8, 9);
    PlainAdvance(s, 9, 10);
    PlainAdvance(s, 10, 13);
    PlainAdvance(s, 13, 14);
    PlainAdvance(s, 14, 15);
  }

  lemma TokenizeOperatorsStepsFrom0(d: Dialect, s: string)
    requires Conforms(d) && TokenizeOperatorsInput(s)
    ensures Next(d, s, 0) == Lexed(Number, Str("1"), 1)
    ensures Next(d, s, 1) == Lexed(Div, Str("/"), 2)
  {
    IntegerAt(d, s, 0, 1);
    assert s[0..1] == "1";
    SymbolAt(d, s, 1, Div, 1);
    assert s[1..2] == "/";
  }

  lemma TokenizeOperatorsStepsFrom2(d: Dialect, s: string)
    requires Conforms(d) && TokenizeOperatorsInput(s)
    ensures Next(d, s, 2) == Lexed(Number, Str("1"), 3)
    ensures Next(d, s, 3) == Lexed(Mult, Str("*"), 4)
  {
    IntegerAt(d, s, 2, 3);
    assert s[2..3] == "1";
    SymbolAt(d, s, 3, Mult, 1);
    assert s[3..4] == "*";
  }

  lemma TokenizeOperatorsStepsFrom4(d: Dialect, s: string)
    requires Conforms(d) && TokenizeOperatorsInput(s)
    ensures Next(d, s, 4) == Lexed(Number, Str("1"), 5)
    ensures Next(d, s, 5) == Lexed(Plus, Str("+"), 6)
  {
    IntegerAt(d, s, 4, 5);
    assert s[4..5] == "1";
    SymbolAt(d, s, 5, Plus, 1);
    assert s[5..6] == "+";
  }

  lemma TokenizeOperatorsStepsFrom6(d: Dialect, s: string)
    requires Conforms(d) && TokenizeOperatorsInput(s)
    ensures Next(d, s, 6) == Lexed(Number, Str("1"), 7)
    ensures Next(d, s, 7) == Lexed(Mod, Str("%"), 8)
  {
    IntegerAt(d, s, 6, 7);
    assert s[6..7] == "1";
    SymbolAt(d, s, 7, Mod, 1);
    assert s[7..8] == "%";
  }

  lemma TokenizeOperatorsStepsFrom8(d: Dialect, s: string)
    requires Conforms(d) && TokenizeOperatorsInput(s)
    ensures Next(d, s, 8) == Lexed(Number, Str("1"), 9)
    ensures Next(d, s, 9) == Lexed(Eq, Str("="), 10)
  {
    IntegerAt(d, s, 8, 9);
    assert s[8..9] == "1";
    SymbolAt(d, s, 9, Eq, 1);
    assert s[9..10] == "=";
  }

  lemma TokenizeOperatorsStepsFrom10(d: Dialect, s: string)
    requires Conforms(d) && TokenizeOperatorsInput(s)
    ensures Next(d, s, 10) == Lexed(Number, Str("1.1"), 13)
    ensures Next(d, s, 13) == Lexed(Minus, Str("-"), 14)
  {
    DecimalAt(d, s, 10, 11, 13);
    assert s[10..13] == "1.1";
    SymbolAt(d, s, 13, Minus, 1);
    assert s[13..14] == "-";
  }

  lemma TokenizeOperatorsStepsFrom14(d: Dialect, s: string)
    requires Conforms(d) && TokenizeOperatorsInput(s)
    ensures Next(d, s, 14) == Lexed(Period, Str("."), 15)
  {
    SymbolAt(d, s, 14, Period, 1);
    assert s[14..15] == ".";
  }

  lemma TokenizeOperatorsScan(d: Dialect, s: string)
    requires |s| == 15
    requires Next(d, s, 0) == Lexed(Number, Str("1"), 1)
    requires Next(d, s, 1) == Lexed(Div, Str("/"), 2)
    requires Next(d, s, 2) == Lexed(Number, Str("1"), 3)
    requires Next(d, s, 3) == Lexed(Mult, Str("*"), 4)
    requires Next(d, s, 4) == Lexed(Number, Str("1"), 5)
    requires Next(d, s, 5) == Lexed(Plus, Str("+"), 6)
    requires Next(d, s, 6) == Lexed(Number, Str("1"), 7)
    requires Next(d, s, 7) == Lexed(Mod, Str("%"), 8)
    requires Next(d, s, 8) == Lexed(Number, Str("1"), 9)
    requires Next(d, s, 9) == Lexed(Eq, Str("="), 10)
    requires Next(d, s, 10) == Lexed(Number, Str("1.1"), 13)
    requires Next(d, s, 13) == Lexed(Minus, Str("-"), 14)
    requires Next(d, s, 14) == Lexed(Period, Str("."), 15)
    requires PosAt(s, 0) == Pos(1, 0)
    requires PosAt(s, 1) == Pos(1, 1)
    requires PosAt(s, 2) == Pos(1, 2)
    requires PosAt(s, 3) == Pos(1, 3)
    requires PosAt(s, 4) == Pos(1, 4)
    requires PosAt(s, 5) == Pos(1, 5)
    requires PosAt(s, 6) == Pos(1, 6)
    requires PosAt(s, 7) == Pos(1, 7)
    requires PosAt(s, 8) == Pos(1, 8)
    requires PosAt(s, 9) == Pos(1, 9)
    requires PosAt(s, 10) == Pos(1, 10)
    requires PosAt(s, 13) == Pos(1, 13)
    requires PosAt(s, 14) == Pos(1, 14)
    requires PosAt(s, 15) == Pos(1, 15)
    ensures var r := Lex(d, s, 0);
      r.err == None &&
      |r.tokens| == 13 &&
      r.tokens[0] == Token(Number, Str("1"), Pos(1, 0), Pos(1, 1)) &&
      r.tokens[1] == Token(Div, Str("/"), Pos(1, 1), Pos(1, 2)) &&
      r.tokens[2] == Token(Number, Str("1"), Pos(1, 2), Pos(1, 3)) &&
      r.tokens[3] == Token(Mult, Str("*"), Pos(1, 3), Pos(1, 4)) &&
      r.tokens[4] == Token(Number, Str("1"), Pos(1, 4), Pos(1, 5)) &&
      r.tokens[5] == Token(Plus, Str("+"), Pos(1, 5), Pos(1, 6)) &&
      r.tokens[6] == Token(Number, Str("1"), Pos(1, 6), Pos(1, 7)) &&
      r.tokens[7] == Token(Mod, Str("%"), Pos(1, 7), Pos(1, 8)) &&
      r.tokens[8] == Token(Number, Str("1"), Pos(1, 8), Pos(1, 9)) &&
      r.tokens[9] == Token(Eq, Str("="), Pos(1, 9), Pos(1, 10)) &&
      r.tokens[10] == Token(Number, Str("1.1"), Pos(1, 10), Pos(1, 13)) &&
      r.tokens[11] == Token(Minus, Str("-"), Pos(1, 13), Pos(1, 14)) &&
      r.tokens[12] == Token(Period, Str("."), Pos(1, 14), Pos(1, 15))
  {
    assert Lex(d, s, 15) == Scan([], None, 15);
    assert Lex(d, s, 14).err == None;
    assert Lex(d, s, 13).err == None;
    assert Lex(d, s, 10).err == None;
    assert Lex(d, s, 9).err == None;
    assert Lex(d, s, 8).err == None;
    assert Lex(d, s, 7).err == None;
    assert Lex(d, s, 6).err == None;
    assert Lex(d, s, 5).err == None;
    assert Lex(d, s, 4).err == None;
    assert Lex(d, s, 3).err == None;
    assert Lex(d, s, 2).err == None;
    assert Lex(d, s, 1).err == None;
  }

  // Test case "operators" (sqltoken/tokenizer_test.go:232-315).
  // The input is written in pieces of at most 12 characters, which keeps the solver's work small.
  lemma TokenizeOperators(d: Dialect)
    requires Conforms(d)
    ensures var r := Lex(d, "1/1*1+1%1=1." + "1-.", 0);
      r.err == None &&
      |r.tokens| == 13 &&
      r.tokens[0] == Token(Number, Str("1"), Pos(1, 0), Pos(1, 1)) &&
      r.tokens[1] == Token(Div, Str("/"), Pos(1, 1), Pos(1, 2)) &&
      r.tokens[2] == Token(Number, Str("1"), Pos(1, 2), Pos(1, 3)) &&
      r.tokens[3] == Token(Mult, Str("*"), Pos(1, 3), Pos(1, 4)) &&
      r.tokens[4] == Token(Number, Str("1"), Pos(1, 4), Pos(1, 5)) &&
      r.tokens[5] == Token(Plus, Str("+"), Pos(1, 5), Pos(1, 6)) &&
      r.tokens[6] == Token(Number, Str("1"), Pos(1, 6), Pos(1, 7)) &&
      r.tokens[7] == Token(Mod, Str("%"), Pos(1, 7), Pos(1, 8)) &&
      r.tokens[8] == Token(Number, Str("1"), Pos(1, 8), Pos(1, 9)) &&
      r.tokens[9] == Token(Eq, Str("="), Pos(1, 9), Pos(1, 10)) &&
      r.tokens[10] == Token(Number, Str("1.1"), Pos(1, 10), Pos(1, 13)) &&
      r.tokens[11] == Token(Minus, Str("-"), Pos(1, 13), Pos(1, 14)) &&
      r.tokens[12] == Token(Period, Str("."), Pos(1, 14), Pos(1, 15))
  {
    var s := "1/1*1+1%1=1." + "1-.";
    TokenizeOperatorsCursor(s);
    TokenizeOperatorsStepsFrom0(d, s);
    TokenizeOperatorsStepsFrom2(d, s);
    TokenizeOperatorsStepsFrom4(d, s);
    TokenizeOperatorsStepsFrom6(d, s);
    TokenizeOperatorsStepsFrom8(d, s);
    TokenizeOperatorsStepsFrom10(d, s);
    TokenizeOperatorsStepsFrom14(d, s);
    TokenizeOperatorsScan(d, s);
  }

  // The characters of "1!=2".
  predicate TokenizeNeqInput(s: string) {
    |s| == 4 && s[0] == '1' && s[1] == '!' && s[2] == '=' && s[3] == '2'
  }

  lemma TokenizeNeqCursor(s: string)
    requires TokenizeNeqInput(s)
    ensures PosAt(s, 1) == Pos(1, 1)
    ensures PosAt(s, 3) == Pos(1, 3)
    ensures PosAt(s, 4) == Pos(1, 4)
  {
    PlainAdvance(s, 0, 1);
    PlainAdvance(s, 1, 3);
    PlainAdvance(s, 3, 4);
  }

  lemma TokenizeNeqStepsFrom0(d: Dialect, s: string)
    requires Conforms(d) && TokenizeNeqInput(s)
    ensures Next(d, s, 0) == Lexed(Number, Str("1"), 1)
    ensures Next(d, s, 1) == Lexed(Neq, Str("!="), 3)
  {
    IntegerAt(d, s, 0, 1);
    assert s[0..1] == "1";
    SymbolAt(d, s, 1, Neq, 2);
    assert s[1..3] == "!=";
  }

  lemma TokenizeNeqStepsFrom3(d: Dialect, s: string)
    requires Conforms(d) && TokenizeNeqInput(s)
    ensures Next(d, s, 3) == Lexed(Number, Str("2"), 4)
  {
    IntegerAt(d, s, 3, 4);
    assert s[3..4] == "2";
  }

  lemma TokenizeNeqScan(d: Dialect, s: string)
    requires |s| == 4
    requires Next(d, s, 0) == Lexed(Number, Str("1"), 1)
    requires Next(d, s, 1) == Lexed(Neq, Str("!="), 3)
    requires Next(d, s, 3) == Lexed(Number, Str("2"), 4)
    requires PosAt(s, 0) == Pos(1, 0)
    requires PosAt(s, 1) == Pos(1, 1)
    requires PosAt(s, 3) == Pos(1, 3)
    requires PosAt(s, 4) == Pos(1, 4)
    ensures var r := Lex(d, s, 0);
      r.err == None &&
      |r.tokens| == 3 &&
      r.tokens[0] == Token(Number, Str("1"), Pos(1, 0), Pos(1, 1)) &&
      r.tokens[1] == Token(Neq, Str("!="), Pos(1, 1), Pos(1, 3)) &&
      r.tokens[2] == Token(Number, Str("2"), Pos(1, 3), Pos(1, 4))
  {
    assert Lex(d, s, 4) == Scan([], None, 4);
    assert Lex(d, s, 3).err == None;
    assert Lex(d, s, 1).err == None;
  }

  // Test case "Neq" (sqltoken/tokenizer_test.go:316-339).
  lemma TokenizeNeq(d: Dialect)
    requires Conforms(d)
    ensures var r := Lex(d, "1!=2", 0);
      r.err == None &&
      |r.tokens| == 3 &&
      r.tokens[0] == Token(Number, Str("1"), Pos(1, 0), Pos(1, 1)) &&
      r.tokens[1] == Token(Neq, Str("!="), Pos(1, 1), Pos(1, 3)) &&
      r.tokens[2] == Token(Number, Str("2"), Pos(1, 3), Pos(1, 4))
  {
    var s := "1!=2";
    TokenizeNeqCursor(s);
    TokenizeNeqStepsFrom0(d, s);
    TokenizeNeqStepsFrom3(d, s);
    TokenizeNeqScan(d, s);
  }

  // The characters of "<<=<>".
  predicate TokenizeLtsInput(s: string) {
    |s| == 5 && s[0] == '<' && s[1] == '<' && s[2] == '=' && s[3] == '<' && s[4] == '>'
  }

  lemma TokenizeLtsCursor(s: string)
    requires TokenizeLtsInput(s)
    ensures PosAt(s, 1) == Pos(1, 1)
    ensures PosAt(s, 3) == Pos(1, 3)
    ensures PosAt(s, 5) == Pos(1, 5)
  {
    PlainAdvance(s, 0, 1);
    PlainAdvance(s, 1, 3);
    PlainAdvance(s, 3, 5);
  }

  lemma TokenizeLtsStepsFrom0(d: Dialect, s: string)
    requires Conforms(d) && TokenizeLtsInput(s)
    ensures Next(d, s, 0) == Lexed(Lt, Str("<"), 1)
    ensures Next(d, s, 1) == Lexed(LtEq, Str("<="), 3)
  {
    SymbolAt(d, s, 0, Lt, 1);
    assert s[0..1] == "<";
    SymbolAt(d, s, 1, LtEq, 2);
    assert s[1..3] == "<=";
  }

  lemma TokenizeLtsStepsFrom3(d: Dialect, s: string)
    requires Conforms(d) && TokenizeLtsInput(s)
    ensures Next(d, s, 3) == Lexed(Neq, Str("<>"), 5)
  {
    SymbolAt(d, s, 3, Neq, 2);
    assert s[3..5] == "<>";
  }

  lemma TokenizeLtsScan(d: Dialect, s: string)
    requires |s| == 5
    requires Next(d, s, 0) == Lexed(Lt, Str("<"), 1)
    requires Next(d, s, 1) == Lexed(LtEq, Str("<="), 3)
    requires Next(d, s, 3) == Lexed(Neq, Str("<>"), 5)
    requires PosAt(s, 0) == Pos(1, 0)
    requires PosAt(s, 1) == Pos(1, 1)
    requires PosAt(s, 3) == Pos(1, 3)
    requires PosAt(s, 5) == Pos(1, 5)
    ensures var r := Lex(d, s, 0);
      r.err == None &&
      |r.tokens| == 3 &&
      r.tokens[0] == Token(Lt, Str("<"), Pos(1, 0), Pos(1, 1)) &&
      r.tokens[1] == Token(LtEq, Str("<="), Pos(1, 1), Pos(1, 3)) &&
      r.tokens[2] == Token(Neq, Str("<>"), Pos(1, 3), Pos(1, 5))
  {
    assert Lex(d, s, 5) == Scan([], None, 5);
    assert Lex(d, s, 3).err == None;
    assert Lex(d, s, 1).err == None;
  }

  // Test case "Lts" (sqltoken/tokenizer_test.go:340-363).
  lemma TokenizeLts(d: Dialect)
    requires Conforms(d)
    ensures var r := Lex(d, "<<=<>", 0);
      r.err == None &&
      |r.tokens| == 3 &&
      r.tokens[0] == Token(Lt, Str("<"), Pos(1, 0), Pos(1, 1)) &&
      r.tokens[1] == Token(LtEq, Str("<="), Pos(1, 1), Pos(1, 3)) &&
      r.tokens[2] == Token(Neq, Str("<>"), Pos(1, 3), Pos(1, 5))
  {
    var s := "<<=<>";
    TokenizeLtsCursor(s);
    TokenizeLtsStepsFrom0(d, s);
    TokenizeLtsStepsFrom3(d, s);
    TokenizeLtsScan(d, s);
  }

  // The characters of ">>=".
  predicate TokenizeGtsInput(s: string) {
    |s| == 3 && s[0] == '>' && s[1] == '>' && s[2] == '='
  }

  lemma TokenizeGtsCursor(s: string)
    requires TokenizeGtsInput(s)
    ensures PosAt(s, 1) == Pos(1, 1)
    ensures PosAt(s, 3) == Pos(1, 3)
  {
    PlainAdvance(s, 0, 1);
    PlainAdvance(s, 1, 3);
  }

  lemma TokenizeGtsSteps(d: Dialect, s: string)
    requires Conforms(d) && TokenizeGtsInput(s)
    ensures Next(d, s, 0) == Lexed(Gt, Str(">"), 1)
    ensures Next(d, s, 1) == Lexed(GtEq, Str(">="), 3)
  {
    SymbolAt(d, s, 0, Gt, 1);
    assert s[0..1] == ">";
    SymbolAt(d, s, 1, GtEq, 2);
    assert s[1..3] == ">=";
  }

  lemma TokenizeGtsScan(d: Dialect, s: string)
    requires |s| == 3
    requires Next(d, s, 0) == Lexed(Gt, Str(">"), 1)
    requires Next(d, s, 1) == Lexed(GtEq, Str(">="), 3)
    requires PosAt(s, 0) == Pos(1, 0)
    requires PosAt(s, 1) == Pos(1, 1)
    requires PosAt(s, 3) == Pos(1, 3)
    ensures var r := Lex(d, s, 0);
      r.err == None &&
      |r.tokens| == 2 &&
      r.tokens[0] == Token(Gt, Str(">"), Pos(1, 0), Pos(1, 1)) &&
      r.tokens[1] == Token(GtEq, Str(">="), Pos(1, 1), Pos(1, 3))
  {
    assert Lex(d, s, 3) == Scan([], None, 3);
    assert Lex(d, s, 1).err == None;
  }

  // Test case "Gts" (sqltoken/tokenizer_test.go:364-381).
  lemma TokenizeGts(d: Dialect)
    requires Conforms(d)
    ensures var r := Lex(d, ">>=", 0);
      r.err == None &&
      |r.tokens| == 2 &&
      r.tokens[0] == Token(Gt, Str(">"), Pos(1, 0), Pos(1, 1)) &&
      r.tokens[1] == Token(GtEq, Str(">="), Pos(1, 1), Pos(1, 3))
  {
    var s := ">>=";
    TokenizeGtsCursor(s);
    TokenizeGtsSteps(d, s);
    TokenizeGtsScan(d, s);
  }

  // The characters of ":1::1;".
  predicate TokenizeColonsInput(s: string) {
    |s| == 6 && s[0] == ':' && s[1] == '1' && s[2] == ':' && s[3] == ':' && s[4] == '1' &&
      s[5] == ';'
  }

  lemma TokenizeColonsCursor(s: string)
    requires TokenizeColonsInput(s)
    ensures PosAt(s, 1) == Pos(1, 1)
    ensures PosAt(s, 2) == Pos(1, 2)
    ensures PosAt(s, 4) == Pos(1, 4)
    ensures PosAt(s, 5) == Pos(1, 5)
    ensures PosAt(s, 6) == Pos(1, 6)
  {
    PlainAdvance(s, 0, 1);
    PlainAdvance(s, 1, 2);
    PlainAdvance(s, 2, 4);
    PlainAdvance(s, 4, 5);
    PlainAdvance(s, 5, 6);
  }

  lemma TokenizeColonsStepsFrom0(d: Dialect, s: string)
    requires Conforms(d) && TokenizeColonsInput(s)
    ensures Next(d, s, 0) == Lexed(Colon, Str(":"), 1)
    ensures Next(d, s, 1) == Lexed(Number, Str("1"), 2)
  {
    SymbolAt(d, s, 0, Colon, 1);
    assert s[0..1] == ":";
    IntegerAt(d, s, 1, 2);
    assert s[1..2] == "1";
  }

  lemma TokenizeColonsStepsFrom2(d: Dialect, s: string)
    requires Conforms(d) && TokenizeColonsInput(s)
    ensures Next(d, s, 2) == Lexed(DoubleColon, Str("::"), 4)
    ensures Next(d, s, 4) == Lexed(Number, Str("1"), 5)
  {
    SymbolAt(d, s, 2, DoubleColon, 2);
    assert s[2..4] == "::";
    IntegerAt(d, s, 4, 5);
    assert s[4..5] == "1";
  }

  lemma TokenizeColonsStepsFrom5(d: Dialect, s: string)
    requires Conforms(d) && TokenizeColonsInput(s)
    ensures Next(d, s, 5) == Lexed(Semicolon, Str(";"), 6)
  {
    SymbolAt(d, s, 5, Semicolon, 1);
    assert s[5..6] == ";";
  }

  lemma TokenizeColonsScan(d: Dialect, s: string)
    requires |s| == 6
    requires Next(d, s, 0) == Lexed(Colon, Str(":"), 1)
    requires Next(d, s, 1) == Lexed(Number, Str("1"), 2)
    requires Next(d, s, 2) == Lexed(DoubleColon, Str("::"), 4)
    requires Next(d, s, 4) == Lexed(Number, Str("1"), 5)
    requires Next(d, s, 5) == Lexed(Semicolon, Str(";"), 6)
    requires PosAt(s, 0) == Pos(1, 0)
    requires PosAt(s, 1) == Pos(1, 1)
    requires PosAt(s, 2) == Pos(1, 2)
    requires PosAt(s, 4) == Pos(1, 4)
    requires PosAt(s, 5) == Pos(1, 5)
    requires PosAt(s, 6) == Pos(1, 6)
    ensures var r := Lex(d, s, 0);
      r.err == None &&
      |r.tokens| == 5 &&
      r.tokens[0] == Token(Colon, Str(":"), Pos(1, 0), Pos(1, 1)) &&
      r.tokens[1] == Token(Number, Str("1"), Pos(1, 1), Pos(1, 2)) &&
      r.tokens[2] == Token(DoubleColon, Str("::"), Pos(1, 2), Pos(1, 4)) &&
      r.tokens[3] == Token(Number, Str("1"), Pos(1, 4), Pos(1, 5)) &&
      r.tokens[4] == Token(Semicolon, Str(";"), Pos(1, 5), Pos(1, 6))
  {
    assert Lex(d, s, 6) == Scan([], None, 6);
    assert Lex(d, s, 5).err == None;
    assert Lex(d, s, 4).err == None;
    assert Lex(d, s, 2).err == None;
    assert Lex(d, s, 1).err == None;
  }

  // Test case "colons" (sqltoken/tokenizer_test.go:382-417).
  lemma TokenizeColons(d: Dialect)
    requires Conforms(d)
    ensures var r := Lex(d, ":1::1;", 0);
      r.err == None &&
      |r.tokens| == 5 &&
      r.tokens[0] == Token(Colon, Str(":"), Pos(1, 0), Pos(1, 1)) &&
      r.tokens[1] == Token(Number, Str("1"), Pos(1, 1), Pos(1, 2)) &&
      r.tokens[2] == Token(DoubleColon, Str("::"), Pos(1, 2), Pos(1, 4)) &&
      r.tokens[3] == Token(Number, Str("1"), Pos(1, 4), Pos(1, 5)) &&
      r.tokens[4] == Token(Semicolon, Str(";"), Pos(1, 5), Pos(1, 6))
  {
    var s := ":1::1;";
    TokenizeColonsCursor(s);
    TokenizeColonsStepsFrom0(d, s);
    TokenizeColonsStepsFrom2(d, s);
    TokenizeColonsStepsFrom5(d, s);
    TokenizeColonsScan(d, s);
  }

  // The characters of "\\[{&}]".
  predicate TokenizeOthersInput(s: string) {
    |s| == 6 && s[0] == '\\' && s[1] == '[' && s[2] == '{' && s[3] == '&' && s[4] == '}' &&
      s[5] == ']'
  }

  lemma TokenizeOthersCursor(s: string)
    requires TokenizeOthersInput(s)
    ensures PosAt(s, 1) == Pos(1, 1)
    ensures PosAt(s, 2) == Pos(1, 2)
    ensures PosAt(s, 3) == Pos(1, 3)
    ensures PosAt(s, 4) == Pos(1, 4)
    ensures PosAt(s, 5) == Pos(1, 5)
    ensures PosAt(s, 6) == Pos(1, 6)
  {
    PlainAdvance(s, 0, 1);
    PlainAdvance(s, 1, 2);
    PlainAdvance(s, 2, 3);
    PlainAdvance(s, 3, 4);
    PlainAdvance(s, 4, 5);
    PlainAdvance(s, 5, 6);
  }

  lemma TokenizeOthersStepsFrom0(d: Dialect, s: string)
    requires Conforms(d) && TokenizeOthersInput(s)
    ensures Next(d, s, 0) == Lexed(Backslash, Str("\\"), 1)
    ensures Next(d, s, 1) == Lexed(LBracket, Str("["), 2)
  {
    SymbolAt(d, s, 0, Backslash, 1);
    assert s[0..1] == "\\";
    SymbolAt(d, s, 1, LBracket, 1);
    assert s[1..2] == "[";
  }

  lemma TokenizeOthersStepsFrom2(d: Dialect, s: string)
    requires Conforms(d) && TokenizeOthersInput(s)
    ensures Next(d, s, 2) == Lexed(LBrace, Str("{"), 3)
    ensures Next(d, s, 3) == Lexed(Ampersand, Str("&"), 4)
  {
    SymbolAt(d, s, 2, LBrace, 1);
    assert s[2..3] == "{";
    SymbolAt(d, s, 3, Ampersand, 1);
    assert s[3..4] == "&";
  }

  lemma TokenizeOthersStepsFrom4(d: Dialect, s: string)
    requires Conforms(d) && TokenizeOthersInput(s)
    ensures Next(d, s, 4) == Lexed(RBrace, Str("}"), 5)
    ensures Next(d, s, 5) == Lexed(RBracket, Str("]"), 6)
  {
    SymbolAt(d, s, 4, RBrace, 1);
    assert s[4..5] == "}";
    SymbolAt(d, s, 5, RBracket, 1);
    assert s[5..6] == "]";
  }

  lemma TokenizeOthersScan(d: Dialect, s: string)
    requires |s| == 6
    requires Next(d, s, 0) == Lexed(Backslash, Str("\\"), 1)
    requires Next(d, s, 1) == Lexed(LBracket, Str("["), 2)
    requires Next(d, s, 2) == Lexed(LBrace, Str("{"), 3)
    requires Next(d, s, 3) == Lexed(Ampersand, Str("&"), 4)
    requires Next(d, s, 4) == Lexed(RBrace, Str("}"), 5)
    requires Next(d, s, 5) == Lexed(RBracket, Str("]"), 6)
    requires PosAt(s, 0) == Pos(1, 0)
    requires PosAt(s, 1) == Pos(1, 1)
    requires PosAt(s, 2) == Pos(1, 2)
    requires PosAt(s, 3) == Pos(1, 3)
    requires PosAt(s, 4) == Pos(1, 4)
    requires PosAt(s, 5) == Pos(1, 5)
    requires PosAt(s, 6) == Pos(1, 6)
    ensures var r := Lex(d, s, 0);
      r.err == None &&
      |r.tokens| == 6 &&
      r.tokens[0] == Token(Backslash, Str("\\"), Pos(1, 0), Pos(1, 1)) &&
      r.tokens[1] == Token(LBracket, Str("["), Pos(1, 1), Pos(1, 2)) &&
      r.tokens[2] == Token(LBrace, Str("{"), Pos(1, 2), Pos(1, 3)) &&
      r.tokens[3] == Token(Ampersand, Str("&"), Pos(1, 3), Pos(1, 4)) &&
      r.tokens[4] == Token(RBrace, Str("}"), Pos(1, 4), Pos(1, 5)) &&
      r.tokens[5] == Token(RBracket, Str("]"), Pos(1, 5), Pos(1, 6))
  {
    assert Lex(d, s, 6) == Scan([], None, 6);
    assert Lex(d, s, 5).err == None;
    assert Lex(d, s, 4).err == None;
    assert Lex(d, s, 3).err == None;
    assert Lex(d, s, 2).err == None;
    assert Lex(d, s, 1).err == None;
  }

  // Test case "others" (sqltoken/tokenizer_test.go:418-459).
  lemma TokenizeOthers(d: Dialect)
    requires Conforms(d)
    ensures var r := Lex(d, "\\[{&}]", 0);
      r.err == None &&
      |r.tokens| == 6 &&
      r.tokens[0] == Token(Backslash, Str("\\"), Pos(1, 0), Pos(1, 1)) &&
      r.tokens[1] == Token(LBracket, Str("["), Pos(1, 1), Pos(1, 2)) &&
      r.tokens[2] == Token(LBrace, Str("{"), Pos(1, 2), Pos(1, 3)) &&
      r.tokens[3] == Token(Ampersand, Str("&"), Pos(1, 3), Pos(1, 4)) &&
      r.tokens[4] == Token(RBrace, Str("}"), Pos(1, 4), Pos(1, 5)) &&
      r.tokens[5] == Token(RBracket, Str("]"), Pos(1, 5), Pos(1, 6))
  {
    var s := "\\[{&}]";
    TokenizeOthersCursor(s);
    TokenizeOthersStepsFrom0(d, s);
    TokenizeOthersStepsFrom2(d, s);
    TokenizeOthersStepsFrom4(d, s);
    TokenizeOthersScan(d, s);
  }
}
