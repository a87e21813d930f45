/** The cases of TestTokenizer_Pos (sqltoken/tokenizer_test.go), restated: each input scans
    without error, and the cursor after the scan (what Pos() returns once Tokenize is done, see
    Tokenizing.TokenizeSource) is the listed position. First "1 op 1" for every operator the test
    lists, through one lemma about any operator, then the other whole inputs. */
module PosCases {
  import opened Positions
  import opened Dialects
  import opened Tokens
  import opened Lexer
  import opened Conformance

  /** The cursor a successful scan of src leaves behind, or None when the scan fails. */
  function CursorAfter(d: Dialect, src: string): Option<Pos> {
    var r := Lex(d, src, 0);
    if r.err == None then Some(PosAt(src, r.stop)) else None
  }

  /** s is "1 op 1" for an operator op of n characters at offset 2 whose scan gives kind k. */
  predicate IsOperatorLine(s: string, k: Kind, n: nat) {
    && (n == 1 || n == 2) && |s| == n + 4
    && s[0] == '1' && s[1] == ' ' && s[n + 2] == ' ' && s[n + 3] == '1'
    && IsSymbol(s[2]) && !IsWhitespace(s[2]) && s[2] != '\'' && s[2] != '"'
    && (n == 2 ==> !IsWhitespace(s[3]))
    && !(s[2] == '-' && s[3] == '-') && !(s[2] == '/' && s[3] == '*')
    && Operator(s, 2) == Some((k, n))
  }

  /** The numbers on either side of the operator in "1 op 1". */
  lemma OperandSteps(d: Dialect, s: string, k: Kind, n: nat)
    requires Conforms(d) && IsOperatorLine(s, k, n)
    ensures Next(d, s, 0) == Lexed(Number, Str("1"), 1)
    ensures Next(d, s, n + 3) == Lexed(Number, Str("1"), n + 4)
  {
    IntegerAt(d, s, 0, 1);
    IntegerAt(d, s, n + 3, n + 4);
    assert s[0..1] == "1" && s[n + 3..n + 4] == "1";
  }

  /** The spaces on either side of the operator in "1 op 1". */
  lemma SpaceSteps(d: Dialect, s: string, k: Kind, n: nat)
    requires Conforms(d) && IsOperatorLine(s, k, n)
    ensures Next(d, s, 1) == Lexed(Whitespace, Str(" "), 2)
    ensures Next(d, s, n + 2) == Lexed(Whitespace, Str(" "), n + 3)
  {
    SpacesAt(d, s, 1, 2);
    SpacesAt(d, s, n + 2, n + 3);
    assert s[1..2] == " " && s[n + 2..n + 3] == " ";
  }

  /** The five tokens of "1 op 1": the number 1, a space, the operator with its kind, a space
      and the number 1, ending at 1, 2, n + 2, n + 3 and n + 4. */
  lemma OperatorSteps(d: Dialect, s: string, k: Kind, n: nat)
    requires Conforms(d) && IsOperatorLine(s, k, n)
    ensures Next(d, s, 0) == Lexed(Number, Str("1"), 1)
    ensures Next(d, s, 1) == Lexed(Whitespace, Str(" "), 2)
    ensures Next(d, s, 2) == Lexed(k, Str(s[2..n + 2]), n + 2)
    ensures Next(d, s, n + 2) == Lexed(Whitespace, Str(" "), n + 3)
    ensures Next(d, s, n + 3) == Lexed(Number, Str("1"), n + 4)
  {
    OperandSteps(d, s, k, n);
    SpaceSteps(d, s, k, n);
    SymbolAt(d, s, 2, k, n);
  }

  /** Five consecutive tokens cover "1 op 1" without error. */
  lemma OperatorScan(d: Dialect, s: string, n: nat)
    requires (n == 1 || n == 2) && |s| == n + 4
    requires Next(d, s, 0).Lexed? && Next(d, s, 0).end == 1
    requires Next(d, s, 1).Lexed? && Next(d, s, 1).end == 2
    requires Next(d, s, 2).Lexed? && Next(d, s, 2).end == n + 2
    requires Next(d, s, n + 2).Lexed? && Next(d, s, n + 2).end == n + 3
    requires Next(d, s, n + 3).Lexed? && Next(d, s, n + 3).end == n + 4
    ensures Lex(d, s, 0).err == None
  {
    assert Lex(d, s, n + 4) == Scan([], None, n + 4);
    assert Lex(d, s, n + 3).err == None;
    assert Lex(d, s, n + 2).err == None;
    assert Lex(d, s, 2).err == None;
    assert Lex(d, s, 1).err == None;
  }

  /** "1 op 1" holds no tab or line break, so the cursor ends one column per character on. */
  lemma OperatorCursor(s: string, k: Kind, n: nat)
    requires IsOperatorLine(s, k, n)
    ensures PosAt(s, n + 4) == Pos(1, 4 + n)
  {
    PlainAdvance(s, 0, n + 4);
  }

  /** "1 op 1" for any operator op: the scan succeeds, and the cursor ends at column 4 + |op|
      of the first line. */
  lemma OperatorBetweenNumbers(d: Dialect, s: string, k: Kind, n: nat)
    requires Conforms(d) && IsOperatorLine(s, k, n)
    ensures CursorAfter(d, s) == Some(Pos(1, 4 + n))
  {
    OperatorSteps(d, s, k, n);
    OperatorScan(d, s, n);
    OperatorCursor(s, k, n);
  }

  // Test "operators", operator "+" (sqltoken/tokenizer_test.go:500-502).
  lemma OperatorPlus(d: Dialect)
    requires Conforms(d)
    ensures CursorAfter(d, "1 + 1") == Some(Pos(1, 5))
  {
    OperatorBetweenNumbers(d, "1 + 1", Plus, 1);
  }

  // Test "operators", operator "-" (sqltoken/tokenizer_test.go:503-505).
  lemma OperatorMinus(d: Dialect)
    requires Conforms(d)
    ensures CursorAfter(d, "1 - 1") == Some(Pos(1, 5))
  {
    OperatorBetweenNumbers(d, "1 - 1", Minus, 1);
  }

  // Test "operators", operator "%" (sqltoken/tokenizer_test.go:506-508).
  lemma OperatorMod(d: Dialect)
    requires Conforms(d)
    ensures CursorAfter(d, "1 % 1") == Some(Pos(1, 5))
  {
    OperatorBetweenNumbers(d, "1 % 1", Mod, 1);
  }

  // Test "operators", operator "*" (sqltoken/tokenizer_test.go:509-511).
  lemma OperatorMult(d: Dialect)
    requires Conforms(d)
    ensures CursorAfter(d, "1 * 1") == Some(Pos(1, 5))
  {
    OperatorBetweenNumbers(d, "1 * 1", Mult, 1);
  }

  // Test "operators", operator "/" (sqltoken/tokenizer_test.go:512-514).
  lemma OperatorDiv(d: Dialect)
    requires Conforms(d)
    ensures CursorAfter(d, "1 / 1") == Some(Pos(1, 5))
  {
    OperatorBetweenNumbers(d, "1 / 1", Div, 1);
  }

  // Test "operators", operator ">" (sqltoken/tokenizer_test.go:515-517).
  lemma OperatorGt(d: Dialect)
    requires Conforms(d)
    ensures CursorAfter(d, "1 > 1") == Some(Pos(1, 5))
  {
    OperatorBetweenNumbers(d, "1 > 1", Gt, 1);
  }

  // Test "operators", operator "=" (sqltoken/tokenizer_test.go:518-520).
  lemma OperatorEq(d: Dialect)
    requires Conforms(d)
    ensures CursorAfter(d, "1 = 1") == Some(Pos(1, 5))
  {
    OperatorBetweenNumbers(d, "1 = 1", Eq, 1);
  }

  // Test "operators", operator "<" (sqltoken/tokenizer_test.go:521-523).
  lemma OperatorLt(d: Dialect)
    requires Conforms(d)
    ensures CursorAfter(d, "1 < 1") == Some(Pos(1, 5))
  {
    OperatorBetweenNumbers(d, "1 < 1", Lt, 1);
  }

  // Test "operators", operator "<=" (sqltoken/tokenizer_test.go:524-527).
  lemma OperatorLtEq(d: Dialect)
    requires Conforms(d)
    ensures CursorAfter(d, "1 <= 1") == Some(Pos(1, 6))
  {
    OperatorBetweenNumbers(d, "1 <= 1", LtEq, 2);
  }

  // Test "operators", operator "<>" (sqltoken/tokenizer_test.go:528-531).
  lemma OperatorNeq(d: Dialect)
    requires Conforms(d)
    ensures CursorAfter(d, "1 <> 1") == Some(Pos(1, 6))
  {
    OperatorBetweenNumbers(d, "1 <> 1", Neq, 2);
  }

  // Test "operators", operator ">=" (sqltoken/tokenizer_test.go:532-535).
  lemma OperatorGtEq(d: Dialect)
    requires Conforms(d)
    ensures CursorAfter(d, "1 >= 1") == Some(Pos(1, 6))
  {
    OperatorBetweenNumbers(d, "1 >= 1", GtEq, 2);
  }

  // The characters of "1+1\nasdf".
  predicate PosMultilineInput(s: string) {
    |s| == 8 && s[0] == '1' && s[1] == '+' && s[2] == '1' && s[3] == '\n' && s[4] == 'a' &&
      s[5] == 's' && s[6] == 'd' && s[7] == 'f'
  }

  lemma PosMultilineCursor(s: string)
    requires PosMultilineInput(s)
    ensures PosAt(s, 8) == Pos(2, 4)
  {
    PlainAdvance(s, 0, 3);
    BreakStartsLine(s, 3);
    PlainAdvance(s, 4, 8);
  }

  lemma PosMultilineStepsFrom0(d: Dialect, s: string)
    requires Conforms(d) && PosMultilineInput(s)
    ensures Next(d, s, 0).Lexed? && Next(d, s, 0).end == 1
    ensures Next(d, s, 1).Lexed? && Next(d, s, 1).end == 2
  {
    IntegerAt(d, s, 0, 1);
    SymbolAt(d, s, 1, Plus, 1);
  }

  lemma PosMultilineStepsFrom2(d: Dialect, s: string)
    requires Conforms(d) && PosMultilineInput(s)
    ensures Next(d, s, 2).Lexed? && Next(d, s, 2).end == 3
    ensures Next(d, s, 3).Lexed? && Next(d, s, 3).end == 4
  {
    IntegerAt(d, s, 2, 3);
    LineBreaksAt(d, s, 3, 4);
  }

  lemma PosMultilineStepsFrom4(d: Dialect, s: string)
    requires Conforms(d) && PosMultilineInput(s)
    ensures Next(d, s, 4).Lexed? && Next(d, s, 4).end == 8
  {
    WordAt(d, s, 4, 8);
  }

  lemma PosMultilineScan(d: Dialect, s: string)
    requires |s| == 8
    requires Next(d, s, 0).Lexed? && Next(d, s, 0).end == 1
    requires Next(d, s, 1).Lexed? && Next(d, s, 1).end == 2
    requires Next(d, s, 2).Lexed? && Next(d, s, 2).end == 3
    requires Next(d, s, 3).Lexed? && Next(d, s, 3).end == 4
    requires Next(d, s, 4).Lexed? && Next(d, s, 4).end == 8
    ensures Lex(d, s, 0).err == None
  {
    assert Lex(d, s, 8) == Scan([], None, 8);
    assert Lex(d, s, 4).err == None;
    assert Lex(d, s, 3).err == None;
    assert Lex(d, s, 2).err == None;
    assert Lex(d, s, 1).err == None;
  }

  // Test case "multiline" (sqltoken/tokenizer_test.go:563-567).
  lemma PosMultiline(d: Dialect)
    requires Conforms(d)
    ensures var src := "1+1\nasdf";
      var r := Lex(d, src, 0); r.err == None && PosAt(src, r.stop) == Pos(2, 4)
  {
    var s := "1+1\nasdf";
    PosMultilineCursor(s);
    PosMultilineStepsFrom0(d, s);
    PosMultilineStepsFrom2(d, s);
    PosMultilineStepsFrom4(d, s);
    PosMultilineScan(d, s);
  }

  // The characters of "-- comments".
  predicate PosSingleLineCommentInput(s: string) {
    |s| == 11 && s[0] == '-' && s[1] == '-' && s[2] == ' ' && s[3] == 'c' && s[4] == 'o' &&
      s[5] == 'm' && s[6] == 'm' && s[7] == 'e' && s[8] == 'n' && s[9] == 't' && s[10] == 's'
  }

  lemma PosSingleLineCommentCursor(s: string)
    requires PosSingleLineCommentInput(s)
    ensures PosAt(s, 11) == Pos(1, 11)
  {
    PlainAdvance(s, 0, 11);
  }

  lemma PosSingleLineCommentSteps(d: Dialect, s: string)
    requires Conforms(d) && PosSingleLineCommentInput(s)
    ensures Next(d, s, 0).Lexed? && Next(d, s, 0).end == 11
  {
    LineCommentAt(d, s, 0, 11);
  }

  lemma PosSingleLineCommentScan(d: Dialect, s: string)
    requires |s| == 11
    requires Next(d, s, 0).Lexed? && Next(d, s, 0).end == 11
    ensures Lex(d, s, 0).err == None
  {
    assert Lex(d, s, 11) == Scan([], None, 11);
  }

  // Test case "single line comment" (sqltoken/tokenizer_test.go:568-572).
  lemma PosSingleLineComment(d: Dialect)
    requires Conforms(d)
    ensures var src := "-- comments";
      var r := Lex(d, src, 0); r.err == None && PosAt(src, r.stop) == Pos(1, 11)
  {
    var s := "-- comments";
    PosSingleLineCommentCursor(s);
    PosSingleLineCommentSteps(d, s);
    PosSingleLineCommentScan(d, s);
  }

  // The characters of "select count(id) from account".
  predicate PosStatementsInput(s: string) {
    |s| == 29 && s[0] == 's' && s[1] == 'e' && s[2] == 'l' && s[3] == 'e' && s[4] == 'c' &&
      s[5] == 't' && s[6] == ' ' && s[7] == 'c' && s[8] == 'o' && s[9] == 'u' && s[10] == 'n' &&
      s[11] == 't' && s[12] == '(' && s[13] == 'i' && s[14] == 'd' && s[15] == ')' &&
      s[16] == ' ' && s[17] == 'f' && s[18] == 'r' && s[19] == 'o' && s[20] == 'm' &&
      s[21] == ' ' && s[22] == 'a' && s[23] == 'c' && s[24] == 'c' && s[25] == 'o' &&
      s[26] == 'u' && s[27] == 'n' && s[28] == 't'
  }

  lemma PosStatementsCursor(s: string)
    requires PosStatementsInput(s)
    ensures PosAt(s, 29) == Pos(1, 29)
  {
    PlainAdvance(s, 0, 29);
  }

  lemma PosStatementsStepsFrom0(d: Dialect, s: string)
    requires Conforms(d) && PosStatementsInput(s)
    ensures Next(d, s, 0).Lexed? && Next(d, s, 0).end == 6
    ensures Next(d, s, 6).Lexed? && Next(d, s, 6).end == 7
  {
    WordAt(d, s, 0, 6);
    SpacesAt(d, s, 6, 7);
  }

  lemma PosStatementsStepsFrom7(d: Dialect, s: string)
    requires Conforms(d) && PosStatementsInput(s)
    ensures Next(d, s, 7).Lexed? && Next(d, s, 7).end == 12
    ensures Next(d, s, 12).Lexed? && Next(d, s, 12).end == 13
  {
    WordAt(d, s, 7, 12);
    SymbolAt(d, s, 12, LParen, 1);
  }

  lemma PosStatementsStepsFrom13(d: Dialect, s: string)
    requires Conforms(d) && PosStatementsInput(s)
    ensures Next(d, s, 13).Lexed? && Next(d, s, 13).end == 15
    ensures Next(d, s, 15).Lexed? && Next(d, s, 15).end == 16
  {
    WordAt(d, s, 13, 15);
    SymbolAt(d, s, 15, RParen, 1);
  }

  lemma PosStatementsStepsFrom16(d: Dialect, s: string)
    requires Conforms(d) && PosStatementsInput(s)
    ensures Next(d, s, 16).Lexed? && Next(d, s, 16).end == 17
    ensures Next(d, s, 17).Lexed? && Next(d, s, 17).end == 21
  {
    SpacesAt(d, s, 16, 17);
    WordAt(d, s, 17, 21);
  }

  lemma PosStatementsStepsFrom21(d: Dialect, s: string)
    requires Conforms(d) && PosStatementsInput(s)
    ensures Next(d, s, 21).Lexed? && Next(d, s, 21).end == 22
    ensures Next(d, s, 22).Lexed? && Next(d, s, 22).end == 29
  {
    SpacesAt(d, s, 21, 22);
    WordAt(d, s, 22, 29);
  }

  lemma PosStatementsScan(d: Dialect, s: string)
    requires |s| == 29
    requires Next(d, s, 0).Lexed? && Next(d, s, 0).end == 6
    requires Next(d, s, 6).Lexed? && Next(d, s, 6).end == 7
    requires Next(d, s, 7).Lexed? && Next(d, s, 7).end == 12
    requires Next(d, s, 12).Lexed? && Next(d, s, 12).end == 13
    requires Next(d, s, 13).Lexed? && Next(d, s, 13).end == 15
    requires Next(d, s, 15).Lexed? && Next(d, s, 15).end == 16
    requires Next(d, s, 16).Lexed? && Next(d, s, 16).end == 17
    requires Next(d, s, 17).Lexed? && Next(d, s, 17).end == 21
    requires Next(d, s, 21).Lexed? && Next(d, s, 21).end == 22
    requires Next(d, s, 22).Lexed? && Next(d, s, 22).end == 29
    ensures Lex(d, s, 0).err == None
  {
    assert Lex(d, s, 29) == Scan([], None, 29);
    assert Lex(d, s, 22).err == None;
    assert Lex(d, s, 21).err == None;
    assert Lex(d, s, 17).err == None;
    assert Lex(d, s, 16).err == None;
    assert Lex(d, s, 15).err == None;
    assert Lex(d, s, 13).err == None;
    assert Lex(d, s, 12).err == None;
    assert Lex(d, s, 7).err == None;
    assert Lex(d, s, 6).err == None;
  }

  // Test case "statements" (sqltoken/tokenizer_test.go:573-577).
  // The input is written in pieces of at most 12 characters, which keeps the solver's work small.
  lemma PosStatements(d: Dialect)
    requires Conforms(d)
    ensures var src := "select count" + "(id) from ac" + "count";
      var r := Lex(d, src, 0); r.err == None && PosAt(src, r.stop) == Pos(1, 29)
  {
    var s := "select count" + "(id) from ac" + "count";
    PosStatementsCursor(s);
    PosStatementsStepsFrom0(d, s);
    PosStatementsStepsFrom7(d, s);
    PosStatementsStepsFrom13(d, s);
    PosStatementsStepsFrom16(d, s);
    PosStatementsStepsFrom21(d, s);
    PosStatementsScan(d, s);
  }

  // The characters of "select count(id)\nfrom account \nwhere name like '%test%'".
  predicate PosMultilineStatementsInput(s: string) {
    |s| == 55 && s[0] == 's' && s[1] == 'e' && s[2] == 'l' && s[3] == 'e' && s[4] == 'c' &&
      s[5] == 't' && s[6] == ' ' && s[7] == 'c' && s[8] == 'o' && s[9] == 'u' && s[10] == 'n' &&
      s[11] == 't' && s[12] == '(' && s[13] == 'i' && s[14] == 'd' && s[15] == ')' &&
      s[16] == '\n' && s[17] == 'f' && s[18] == 'r' && s[19] == 'o' && s[20] == 'm' &&
      s[21] == ' ' && s[22] == 'a' && s[23] == 'c' && s[24] == 'c' && s[25] == 'o' &&
      s[26] == 'u' && s[27] == 'n' && s[28] == 't' && s[29] == ' ' && s[30] == '\n' &&
      s[31] == 'w' && s[32] == 'h' && s[33] == 'e' && s[34] == 'r' && s[35] == 'e' &&
      s[36] == ' ' && s[37] == 'n' && s[38] == 'a' && s[39] == 'm' && s[40] == 'e' &&
      s[41] == ' ' && s[42] == 'l' && s[43] == 'i' && s[44] == 'k' && s[45] == 'e' &&
      s[46] == ' ' && s[47] == '\'' && s[48] == '%' && s[49] == 't' && s[50] == 'e' &&
      s[51] == 's' && s[52] == 't' && s[53] == '%' && s[54] == '\''
  }

  lemma PosMultilineStatementsCursor(s: string)
    requires PosMultilineStatementsInput(s)
    ensures PosAt(s, 55) == Pos(3, 24)
  {
    PlainAdvance(s, 0, 16);
    BreakStartsLine(s, 16);
    PlainAdvance(s, 17, 30);
    BreakStartsLine(s, 30);
    PlainAdvance(s, 31, 55);
  }

  lemma PosMultilineStatementsStepsFrom0(d: Dialect, s: string)
    requires Conforms(d) && PosMultilineStatementsInput(s)
    ensures Next(d, s, 0).Lexed? && Next(d, s, 0).end == 6
    ensures Next(d, s, 6).Lexed? && Next(d, s, 6).end == 7
  {
    WordAt(d, s, 0, 6);
    SpacesAt(d, s, 6, 7);
  }

  lemma PosMultilineStatementsStepsFrom7(d: Dialect, s: string)
    requires Conforms(d) && PosMultilineStatementsInput(s)
    ensures Next(d, s, 7).Lexed? && Next(d, s, 7).end == 12
    ensures Next(d, s, 12).Lexed? && Next(d, s, 12).end == 13
  {
    WordAt(d, s, 7, 12);
    SymbolAt(d, s, 12, LParen, 1);
  }

  lemma PosMultilineStatementsStepsFrom13(d: Dialect, s: string)
    requires Conforms(d) && PosMultilineStatementsInput(s)
    ensures Next(d, s, 13).Lexed? && Next(d, s, 13).end == 15
    ensures Next(d, s, 15).Lexed? && Next(d, s, 15).end == 16
  {
    WordAt(d, s, 13, 15);
    SymbolAt(d, s, 15, RParen, 1);
  }

  lemma PosMultilineStatementsStepsFrom16(d: Dialect, s: string)
    requires Conforms(d) && PosMultilineStatementsInput(s)
    ensures Next(d, s, 16).Lexed? && Next(d, s, 16).end == 17
    ensures Next(d, s, 17).Lexed? && Next(d, s, 17).end == 21
  {
    LineBreaksAt(d, s, 16, 17);
    WordAt(d, s, 17, 21);
  }

  lemma PosMultilineStatementsStepsFrom21(d: Dialect, s: string)
    requires Conforms(d) && PosMultilineStatementsInput(s)
    ensures Next(d, s, 21).Lexed? && Next(d, s, 21).end == 22
    ensures Next(d, s, 22).Lexed? && Next(d, s, 22).end == 29
  {
    SpacesAt(d, s, 21, 22);
    WordAt(d, s, 22, 29);
  }

  lemma PosMultilineStatementsStepsFrom29(d: Dialect, s: string)
    requires Conforms(d) && PosMultilineStatementsInput(s)
    ensures Next(d, s, 29).Lexed? && Next(d, s, 29).end == 30
    ensures Next(d, s, 30).Lexed? && Next(d, s, 30).end == 31
  {
    SpacesAt(d, s, 29, 30);
    LineBreaksAt(d, s, 30, 31);
  }

  lemma PosMultilineStatementsStepsFrom31(d: Dialect, s: string)
    requires Conforms(d) && PosMultilineStatementsInput(s)
    ensures Next(d, s, 31).Lexed? && Next(d, s, 31).end == 36
    ensures Next(d, s, 36).Lexed? && Next(d, s, 36).end == 37
  {
    WordAt(d, s, 31, 36);
    SpacesAt(d, s, 36, 37);
  }

  lemma PosMultilineStatementsStepsFrom37(d: Dialect, s: string)
    requires Conforms(d) && PosMultilineStatementsInput(s)
    ensures Next(d, s, 37).Lexed? && Next(d, s, 37).end == 41
    ensures Next(d, s, 41).Lexed? && Next(d, s, 41).end == 42
  {
    WordAt(d, s, 37, 41);
    SpacesAt(d, s, 41, 42);
  }

  lemma PosMultilineStatementsStepsFrom42(d: Dialect, s: string)
    requires Conforms(d) && PosMultilineStatementsInput(s)
    ensures Next(d, s, 42).Lexed? && Next(d, s, 42).end == 46
    ensures Next(d, s, 46).Lexed? && Next(d, s, 46).end == 47
  {
    WordAt(d, s, 42, 46);
    SpacesAt(d, s, 46, 47);
  }

  lemma PosMultilineStatementsStepsFrom47(d: Dialect, s: string)
    requires Conforms(d) && PosMultilineStatementsInput(s)
    ensures Next(d, s, 47).Lexed? && Next(d, s, 47).end == 55
  {
    SingleQuotedAt(d, s, 47, 55);
  }

  lemma PosMultilineStatementsScanFrom0(d: Dialect, s: string)
    requires |s| == 55
    requires Next(d, s, 0).Lexed? && Next(d, s, 0).end == 6
    requires Next(d, s, 6).Lexed? && Next(d, s, 6).end == 7
    requires Next(d, s, 7).Lexed? && Next(d, s, 7).end == 12
    requires Next(d, s, 12).Lexed? && Next(d, s, 12).end == 13
    requires Next(d, s, 13).Lexed? && Next(d, s, 13).end == 15
    requires Next(d, s, 15).Lexed? && Next(d, s, 15).end == 16
    requires Next(d, s, 16).Lexed? && Next(d, s, 16).end == 17
    requires Next(d, s, 17).Lexed? && Next(d, s, 17).end == 21
    requires Next(d, s, 21).Lexed? && Next(d, s, 21).end == 22
    requires Next(d, s, 22).Lexed? && Next(d, s, 22).end == 29
    requires Next(d, s, 29).Lexed? && Next(d, s, 29).end == 30
    requires Next(d, s, 30).Lexed? && Next(d, s, 30).end == 31
    requires Next(d, s, 31).Lexed? && Next(d, s, 31).end == 36
    requires Next(d, s, 36).Lexed? && Next(d, s, 36).end == 37
    requires Next(d, s, 37).Lexed? && Next(d, s, 37).end == 41
    requires Next(d, s, 41).Lexed? && Next(d, s, 41).end == 42
    requires Next(d, s, 42).Lexed? && Next(d, s, 42).end == 46
    requires Next(d, s, 46).Lexed? && Next(d, s, 46).end == 47
    requires Next(d, s, 47).Lexed? && Next(d, s, 47).end == 55
    ensures Lex(d, s, 0).err == None
  {
    PosMultilineStatementsScanFrom31(d, s);
    assert Lex(d, s, 30).err == None;
    assert Lex(d, s, 29).err == None;
    assert Lex(d, s, 22).err == None;
    assert Lex(d, s, 21).err == None;
    assert Lex(d, s, 17).err == None;
    assert Lex(d, s, 16).err == None;
    assert Lex(d, s, 15).err == None;
    assert Lex(d, s, 13).err == None;
    assert Lex(d, s, 12).err == None;
    assert Lex(d, s, 7).err == None;
    assert Lex(d, s, 6).err == None;
  }

  lemma PosMultilineStatementsScanFrom31(d: Dialect, s: string)
    requires |s| == 55
    requires Next(d, s, 31).Lexed? && Next(d, s, 31).end == 36
    requires Next(d, s, 36).Lexed? && Next(d, s, 36).end == 37
    requires Next(d, s, 37).Lexed? && Next(d, s, 37).end == 41
    requires Next(d, s, 41).Lexed? && Next(d, s, 41).end == 42
    requires Next(d, s, 42).Lexed? && Next(d, s, 42).end == 46
    requires Next(d, s, 46).Lexed? && Next(d, s, 46).end == 47
    requires Next(d, s, 47).Lexed? && Next(d, s, 47).end == 55
    ensures Lex(d, s, 31).err == None
  {
    assert Lex(d, s, 55) == Scan([], None, 55);
    assert Lex(d, s, 47).err == None;
    assert Lex(d, s, 46).err == None;
    assert Lex(d, s, 42).err == None;
    assert Lex(d, s, 41).err == None;
    assert Lex(d, s, 37).err == None;
    assert Lex(d, s, 36).err == None;
  }

  // Test case "multiline statements" (sqltoken/tokenizer_test.go:578-584).
  // The input is written in pieces of at most 12 characters, which keeps the solver's work small.
  lemma PosMultilineStatements(d: Dialect)
    requires Conforms(d)
    ensures var src := "select count" + "(id)\nfrom ac" + "count \nwhere" + " name like '" + "%test%'";
      var r := Lex(d, src, 0); r.err == None && PosAt(src, r.stop) == Pos(3, 24)
  {
    var s := "select count" + "(id)\nfrom ac" + "count \nwhere" + " name like '" + "%test%'";
    PosMultilineStatementsCursor(s);
    PosMultilineStatementsStepsFrom0(d, s);
    PosMultilineStatementsStepsFrom7(d, s);
    PosMultilineStatementsStepsFrom13(d, s);
    PosMultilineStatementsStepsFrom16(d, s);
    PosMultilineStatementsStepsFrom21(d, s);
    PosMultilineStatementsStepsFrom29(d, s);
    PosMultilineStatementsStepsFrom31(d, s);
    PosMultilineStatementsStepsFrom37(d, s);
    PosMultilineStatementsStepsFrom42(d, s);
    PosMultilineStatementsStepsFrom47(d, s);
    PosMultilineStatementsScanFrom0(d, s);
  }

  // The characters of "/*\ntest comment\ntest comment\n*/".
  predicate PosMultilineCommentInput(s: string) {
    |s| == 31 && s[0] == '/' && s[1] == '*' && s[2] == '\n' && s[3] == 't' && s[4] == 'e' &&
      s[5] == 's' && s[6] == 't' && s[7] == ' ' && s[8] == 'c' && s[9] == 'o' && s[10] == 'm' &&
      s[11] == 'm' && s[12] == 'e' && s[13] == 'n' && s[14] == 't' && s[15] == '\n' &&
      s[16] == 't' && s[17] == 'e' && s[18] == 's' && s[19] == 't' && s[20] == ' ' &&
      s[21] == 'c' && s[22] == 'o' && s[23] == 'm' && s[24] == 'm' && s[25] == 'e' &&
      s[26] == 'n' && s[27] == 't' && s[28] == '\n' && s[29] == '*' && s[30] == '/'
  }

  lemma PosMultilineCommentCursor(s: string)
    requires PosMultilineCommentInput(s)
    ensures PosAt(s, 31) == Pos(4, 2)
  {
    PlainAdvance(s, 0, 2);
    BreakStartsLine(s, 2);
    PlainAdvance(s, 3, 15);
    BreakStartsLine(s, 15);
    PlainAdvance(s, 16, 28);
    BreakStartsLine(s, 28);
    PlainAdvance(s, 29, 31);
  }

  lemma PosMultilineCommentSteps(d: Dialect, s: string)
    requires Conforms(d) && PosMultilineCommentInput(s)
    ensures Next(d, s, 0).Lexed? && Next(d, s, 0).end == 31
  {
    BlockCommentAt(d, s, 0, 31);
  }

  lemma PosMultilineCommentScan(d: Dialect, s: string)
    requires |s| == 31
    requires Next(d, s, 0).Lexed? && Next(d, s, 0).end == 31
    ensures Lex(d, s, 0).err == None
  {
    assert Lex(d, s, 31) == Scan([], None, 31);
  }

  // Test case "multiline comment" (sqltoken/tokenizer_test.go:585-592).
  // The input is written in pieces of at most 12 characters, which keeps the solver's work small.
  lemma PosMultilineComment(d: Dialect)
    requires Conforms(d)
    ensures var src := "/*\ntest comm" + "ent\ntest com" + "ment\n*/";
      var r := Lex(d, src, 0); r.err == None && PosAt(src, r.stop) == Pos(4, 2)
  {
    var s := "/*\ntest comm" + "ent\ntest com" + "ment\n*/";
    PosMultilineCommentCursor(s);
    PosMultilineCommentSteps(d, s);
    PosMultilineCommentScan(d, s);
  }

  // The characters of "/* asdf */".
  predicate PosSingleLineBlockCommentInput(s: string) {
    |s| == 10 && s[0] == '/' && s[1] == '*' && s[2] == ' ' && s[3] == 'a' && s[4] == 's' &&
      s[5] == 'd' && s[6] == 'f' && s[7] == ' ' && s[8] == '*' && s[9] == '/'
  }

  lemma PosSingleLineBlockCommentCursor(s: string)
    requires PosSingleLineBlockCommentInput(s)
    ensures PosAt(s, 10) == Pos(1, 10)
  {
    PlainAdvance(s, 0, 10);
  }

  lemma PosSingleLineBlockCommentSteps(d: Dialect, s: string)
    requires Conforms(d) && PosSingleLineBlockCommentInput(s)
    ensures Next(d, s, 0).Lexed? && Next(d, s, 0).end == 10
  {
    BlockCommentAt(d, s, 0, 10);
  }

  lemma PosSingleLineBlockCommentScan(d: Dialect, s: string)
    requires |s| == 10
    requires Next(d, s, 0).Lexed? && Next(d, s, 0).end == 10
    ensures Lex(d, s, 0).err == None
  {
    assert Lex(d, s, 10) == Scan([], None, 10);
  }

  // Test case "single line comment (a block comment)" (sqltoken/tokenizer_test.go:593-597).
  lemma PosSingleLineBlockComment(d: Dialect)
    requires Conforms(d)
    ensures var src := "/* asdf */";
      var r := Lex(d, src, 0); r.err == None && PosAt(src, r.stop) == Pos(1, 10)
  {
    var s := "/* asdf */";
    PosSingleLineBlockCommentCursor(s);
    PosSingleLineBlockCommentSteps(d, s);
    PosSingleLineBlockCommentScan(d, s);
  }

  // The characters of "select * from /* test table */ test_table where id != 123".
  predicate PosCommentInsideSqlInput(s: string) {
    |s| == 57 && s[0] == 's' && s[1] == 'e' && s[2] == 'l' && s[3] == 'e' && s[4] == 'c' &&
      s[5] == 't' && s[6] == ' ' && s[7] == '*' && s[8] == ' ' && s[9] == 'f' && s[10] == 'r' &&
      s[11] == 'o' && s[12] == 'm' && s[13] == ' ' && s[14] == '/' && s[15] == '*' &&
      s[16] == ' ' && s[17] == 't' && s[18] == 'e' && s[19] == 's' && s[20] == 't' &&
      s[21] == ' ' && s[22] == 't' && s[23] == 'a' && s[24] == 'b' && s[25] == 'l' &&
      s[26] == 'e' && s[27] == ' ' && s[28] == '*' && s[29] == '/' && s[30] == ' ' &&
      s[31] == 't' && s[32] == 'e' && s[33] == 's' && s[34] == 't' && s[35] == '_' &&
      s[36] == 't' && s[37] == 'a' && s[38] == 'b' && s[39] == 'l' && s[40] == 'e' &&
      s[41] == ' ' && s[42] == 'w' && s[43] == 'h' && s[44] == 'e' && s[45] == 'r' &&
      s[46] == 'e' && s[47] == ' ' && s[48] == 'i' && s[49] == 'd' && s[50] == ' ' &&
      s[51] == '!' && s[52] == '=' && s[53] == ' ' && s[54] == '1' && s[55] == '2' && s[56] == '3'
  }

  lemma PosCommentInsideSqlCursor(s: string)
    requires PosCommentInsideSqlInput(s)
    ensures PosAt(s, 57) == Pos(1, 57)
  {
    PlainAdvance(s, 0, 57);
  }

  lemma PosCommentInsideSqlStepsFrom0(d: Dialect, s: string)
    requires Conforms(d) && PosCommentInsideSqlInput(s)
    ensures Next(d, s, 0).Lexed? && Next(d, s, 0).end == 6
    ensures Next(d, s, 6).Lexed? && Next(d, s, 6).end == 7
  {
    WordAt(d, s, 0, 6);
    SpacesAt(d, s, 6, 7);
  }

  lemma PosCommentInsideSqlStepsFrom7(d: Dialect, s: string)
    requires Conforms(d) && PosCommentInsideSqlInput(s)
    ensures Next(d, s, 7).Lexed? && Next(d, s, 7).end == 8
    ensures Next(d, s, 8).Lexed? && Next(d, s, 8).end == 9
  {
    SymbolAt(d, s, 7, Mult, 1);
    SpacesAt(d, s, 8, 9);
  }

  lemma PosCommentInsideSqlStepsFrom9(d: Dialect, s: string)
    requires Conforms(d) && PosCommentInsideSqlInput(s)
    ensures Next(d, s, 9).Lexed? && Next(d, s, 9).end == 13
    ensures Next(d, s, 13).Lexed? && Next(d, s, 13).end == 14
  {
    WordAt(d, s, 9, 13);
    SpacesAt(d, s, 13, 14);
  }

  lemma PosCommentInsideSqlStepsFrom14(d: Dialect, s: string)
    requires Conforms(d) && PosCommentInsideSqlInput(s)
    ensures Next(d, s, 14).Lexed? && Next(d, s, 14).end == 30
  {
    BlockCommentAt(d, s, 14, 30);
  }

  lemma PosCommentInsideSqlStepsFrom30(d: Dialect, s: string)
    requires Conforms(d) && PosCommentInsideSqlInput(s)
    ensures Next(d, s, 30).Lexed? && Next(d, s, 30).end == 31
  {
    SpacesAt(d, s, 30, 31);
  }

  lemma PosCommentInsideSqlStepsFrom31(d: Dialect, s: string)
    requires Conforms(d) && PosCommentInsideSqlInput(s)
    ensures Next(d, s, 31).Lexed? && Next(d, s, 31).end == 41
  {
    WordAt(d, s, 31, 41);
  }

  lemma PosCommentInsideSqlStepsFrom41(d: Dialect, s: string)
    requires Conforms(d) && PosCommentInsideSqlInput(s)
    ensures Next(d, s, 41).Lexed? && Next(d, s, 41).end == 42
    ensures Next(d, s, 42).Lexed? && Next(d, s, 42).end == 47
  {
    SpacesAt(d, s, 41, 42);
    WordAt(d, s, 42, 47);
  }

  lemma PosCommentInsideSqlStepsFrom47(d: Dialect, s: string)
    requires Conforms(d) && PosCommentInsideSqlInput(s)
    ensures Next(d, s, 47).Lexed? && Next(d, s, 47).end == 48
    ensures Next(d, s, 48).Lexed? && Next(d, s, 48).end == 50
  {
    SpacesAt(d, s, 47, 48);
    WordAt(d, s, 48, 50);
  }

  lemma PosCommentInsideSqlStepsFrom50(d: Dialect, s: string)
    requires Conforms(d) && PosCommentInsideSqlInput(s)
    ensures Next(d, s, 50).Lexed? && Next(d, s, 50).end == 51
    ensures Next(d, s, 51).Lexed? && Next(d, s, 51).end == 53
  {
    SpacesAt(d, s, 50, 51);
    SymbolAt(d, s, 51, Neq, 2);
  }

  lemma PosCommentInsideSqlStepsFrom53(d: Dialect, s: string)
    requires Conforms(d) && PosCommentInsideSqlInput(s)
    ensures Next(d, s, 53).Lexed? && Next(d, s, 53).end == 54
    ensures Next(d, s, 54).Lexed? && Next(d, s, 54).end == 57
  {
    SpacesAt(d, s, 53, 54);
    IntegerAt(d, s, 54, 57);
  }

  lemma PosCommentInsideSqlScanFrom0(d: Dialect, s: string)
    requires |s| == 57
    requires Next(d, s, 0).Lexed? && Next(d, s, 0).end == 6
    requires Next(d, s, 6).Lexed? && Next(d, s, 6).end == 7
    requires Next(d, s, 7).Lexed? && Next(d, s, 7).end == 8
    requires Next(d, s, 8).Lexed? && Next(d, s, 8).end == 9
    requires Next(d, s, 9).Lexed? && Next(d, s, 9).end == 13
    requires Next(d, s, 13).Lexed? && Next(d, s, 13).end == 14
    requires Next(d, s, 14).Lexed? && Next(d, s, 14).end == 30
    requires Next(d, s, 30).Lexed? && Next(d, s, 30).end == 31
    requires Next(d, s, 31).Lexed? && Next(d, s, 31).end == 41
    requires Next(d, s, 41).Lexed? && Next(d, s, 41).end == 42
    requires Next(d, s, 42).Lexed? && Next(d, s, 42).end == 47
    requires Next(d, s, 47).Lexed? && Next(d, s, 47).end == 48
    requires Next(d, s, 48).Lexed? && Next(d, s, 48).end == 50
    requires Next(d, s, 50).Lexed? && Next(d, s, 50).end == 51
    requires Next(d, s, 51).Lexed? && Next(d, s, 51).end == 53
    requires Next(d, s, 53).Lexed? && Next(d, s, 53).end == 54
    requires Next(d, s, 54).Lexed? && Next(d, s, 54).end == 57
    ensures Lex(d, s, 0).err == None
  {
    PosCommentInsideSqlScanFrom48(d, s);
    assert Lex(d, s, 47).err == None;
    assert Lex(d, s, 42).err == None;
    assert Lex(d, s, 41).err == None;
    assert Lex(d, s, 31).err == None;
    assert Lex(d, s, 30).err == None;
    assert Lex(d, s, 14).err == None;
    assert Lex(d, s, 13).err == None;
    assert Lex(d, s, 9).err == None;
    assert Lex(d, s, 8).err == None;
    assert Lex(d, s, 7).err == None;
    assert Lex(d, s, 6).err == None;
  }

  lemma PosCommentInsideSqlScanFrom48(d: Dialect, s: string)
    requires |s| == 57
    requires Next(d, s, 48).Lexed? && Next(d, s, 48).end == 50
    requires Next(d, s, 50).Lexed? && Next(d, s, 50).end == 51
    requires Next(d, s, 51).Lexed? && Next(d, s, 51).end == 53
    requires Next(d, s, 53).Lexed? && Next(d, s, 53).end == 54
    requires Next(d, s, 54).Lexed? && Next(d, s, 54).end == 57
    ensures Lex(d, s, 48).err == None
  {
    assert Lex(d, s, 57) == Scan([], None, 57);
    assert Lex(d, s, 54).err == None;
    assert Lex(d, s, 53).err == None;
    assert Lex(d, s, 51).err == None;
    assert Lex(d, s, 50).err == None;
  }

  // Test case "comment inside sql" (sqltoken/tokenizer_test.go:598-602).
  // The input is written in pieces of at most 12 characters, which keeps the solver's work small.
  lemma PosCommentInsideSql(d: Dialect)
    requires Conforms(d)
    ensures var src := "select * fro" + "m /* test ta" + "ble */ test_" + "table where " + "id != 123";
      var r := Lex(d, src, 0); r.err == None && PosAt(src, r.stop) == Pos(1, 57)
  {
    var s := "select * fro" + "m /* test ta" + "ble */ test_" + "table where " + "id != 123";
    PosCommentInsideSqlCursor(s);
    PosCommentInsideSqlStepsFrom0(d, s);
    PosCommentInsideSqlStepsFrom7(d, s);
    PosCommentInsideSqlStepsFrom9(d, s);
    PosCommentInsideSqlStepsFrom14(d, s);
    PosCommentInsideSqlStepsFrom30(d, s);
    PosCommentInsideSqlStepsFrom31(d, s);
    PosCommentInsideSqlStepsFrom41(d, s);
    PosCommentInsideSqlStepsFrom47(d, s);
    PosCommentInsideSqlStepsFrom50(d, s);
    PosCommentInsideSqlStepsFrom53(d, s);
    PosCommentInsideSqlScanFrom0(d, s);
  }
}
