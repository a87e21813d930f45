/** What the tokenizer's rules promise: the tokens cover the source without gaps, each kind of
    token has the shape the SQL lexical rules describe, and operators are matched longest
    first. */
module LexerProperties {
  import opened Positions
  import opened Dialects
  import opened Tokens
  import opened Lexer

  /** Every operator and punctuation symbol with the kind it stands for. */
  const SYMBOLS: map<string, Kind> := map[
    "<=" := LtEq, "<>" := Neq, ">=" := GtEq, "!=" := Neq, "::" := DoubleColon,
    "<" := Lt, ">" := Gt, "=" := Eq, "+" := Plus, "-" := Minus, "*" := Mult, "/" := Div,
    "%" := Mod, ":" := Colon, ";" := Semicolon, "," := Comma, "." := Period,
    "\\" := Backslash, "(" := LParen, ")" := RParen, "[" := LBracket, "]" := RBracket,
    "{" := LBrace, "}" := RBrace, "&" := Ampersand]

  // ---------------------------------------------------------------------------------------
  // The scan as a whole

  /** t is what Next finds at offset a, reaching offset b, positioned by the cursor at both. */
  ghost predicate TokenAt(d: Dialect, s: string, t: Token, a: nat, b: nat) {
    a < b <= |s| && Next(d, s, a) == Lexed(t.kind, t.value, b) && t.from == PosAt(s, a) && t.to == PosAt(s, b)
  }

  /** c cuts s into the pieces of scan r: one cut per token plus one at the end, token k is
      what Next finds at cut k and reaches to cut k + 1, its positions are the cursor at both
      cuts, the scan has no error exactly when the last cut is the end of s, and an error is
      what Next reports at the last cut. */
  ghost predicate CutsCover(d: Dialect, s: string, r: Scan, c: seq<nat>) {
    |c| == |r.tokens| + 1 &&
    (forall k :: 0 <= k < |c| ==> c[k] <= |s|) &&
    c[|c| - 1] <= r.stop &&
    (forall k :: 0 <= k < |r.tokens| ==> TokenAt(d, s, r.tokens[k], c[k], c[k + 1])) &&
    (r.err == None <==> c[|c| - 1] == |s|) &&
    (r.err.Some? ==> c[|c| - 1] < |s| && Next(d, s, c[|c| - 1]) == Failed(r.err.value, r.stop))
  }

  /** The tokens of a scan from offset i cover s[i..] without gaps or overlaps, as CutsCover
      states with the cuts starting at i. */
  lemma {:induction false} Coverage(d: Dialect, s: string, i: nat)
    requires i <= |s|
    ensures Cuts(d, s, i)[0] == i && CutsCover(d, s, Lex(d, s, i), Cuts(d, s, i))
    decreases |s| - i
  {
    if i < |s| && Next(d, s, i).Lexed? {
      var j := Next(d, s, i).end;
      Coverage(d, s, j);
      var t := Token(Next(d, s, i).kind, Next(d, s, i).value, PosAt(s, i), PosAt(s, j));
      assert Lex(d, s, i) == Scan([t] + Lex(d, s, j).tokens, Lex(d, s, j).err, Lex(d, s, j).stop);
      assert Cuts(d, s, i) == [i] + Cuts(d, s, j);
      CoverCons(d, s, i, t, Lex(d, s, j), Cuts(d, s, j));
    }
  }

  /** A token in front of a covered scan, ending where the scan's first cut is, gives a covered
      scan. */
  lemma CoverCons(d: Dialect, s: string, i: nat, t: Token, r: Scan, c: seq<nat>)
    requires CutsCover(d, s, r, c) && TokenAt(d, s, t, i, c[0])
    ensures CutsCover(d, s, Scan([t] + r.tokens, r.err, r.stop), [i] + c)
  {
    var ts, cs := [t] + r.tokens, [i] + c;
    forall n | 0 <= n < |ts|
      ensures TokenAt(d, s, ts[n], cs[n], cs[n + 1])
    {
      if n > 0 {
        assert ts[n] == r.tokens[n - 1] && cs[n] == c[n - 1] && cs[n + 1] == c[n];
      }
    }
  }

  /** The source's contiguity promise: the first token starts at line 1, column 0, each token
      starts where the previous one ends, no token ends before it starts, and after a scan
      without error the last token ends at the cursor's final position. */
  lemma Contiguity(d: Dialect, s: string)
    ensures var r := Lex(d, s, 0); var t := r.tokens;
      (|t| > 0 ==> t[0].from == START) &&
      (forall k :: 0 <= k < |t| - 1 ==> t[k].to == t[k + 1].from) &&
      (forall k :: 0 <= k < |t| ==> NotAfter(t[k].from, t[k].to)) &&
      (r.err == None && |t| > 0 ==> t[|t| - 1].to == PosAt(s, r.stop))
  {
    Coverage(d, s, 0);
    var r, c := Lex(d, s, 0), Cuts(d, s, 0);
    forall k | 0 <= k < |r.tokens|
      ensures r.tokens[k].from == PosAt(s, c[k]) && r.tokens[k].to == PosAt(s, c[k + 1])
      ensures NotAfter(r.tokens[k].from, r.tokens[k].to)
    {
      assert TokenAt(d, s, r.tokens[k], c[k], c[k + 1]);
      Monotone(s, c[k], c[k + 1]);
    }
  }

  /** A scan stops at the end of s, with or without an error, unless it meets a character that
      starts no token: then it stops at that character, so the cursor is that character's
      position, and the error names it. */
  lemma {:induction false} ScanStop(d: Dialect, s: string, i: nat)
    requires i <= |s|
    ensures var r := Lex(d, s, i);
      (r.err.Some? && r.err.value.InvalidCharacter? ==> r.stop < |s| && s[r.stop] == r.err.value.c) &&
      (!(r.err.Some? && r.err.value.InvalidCharacter?) ==> r.stop == |s|)
    decreases |s| - i
  {
    if i < |s| && Next(d, s, i).Lexed? {
      ScanStop(d, s, Next(d, s, i).end);
    } else if i < |s| {
      NextFailure(d, s, i);
    }
  }

  // ---------------------------------------------------------------------------------------
  // Whitespace

  /** Whitespace is kept: a maximal run of one class of whitespace is one token. A run of line
      breaks has one "\n" per line it starts and leaves the cursor at column 0 of the line
      below; a run of n spaces advances the column by n, a run of n tabs by 4 n. */
  lemma WhitespaceRun(d: Dialect, s: string, i: nat)
    requires i < |s| && IsWhitespace(s[i])
    ensures var r := Next(d, s, i);
      r.Lexed? && r.kind == Whitespace &&
      (forall k :: i <= k < r.end ==> SameWhitespace(s[k], s[i])) &&
      (r.end == |s| || !SameWhitespace(s[r.end], s[i])) &&
      (IsLineBreak(s[i]) ==>
        r.value == Str(LineBreakText(s, i, r.end)) &&
        PosAt(s, r.end) == Pos(PosAt(s, i).line + |r.value.text|, 0)) &&
      (!IsLineBreak(s[i]) ==>
        r.value == Str(s[i..r.end]) &&
        PosAt(s, r.end) == Pos(PosAt(s, i).line,
                               PosAt(s, i).col + (r.end - i) * (if s[i] == '\t' then TAB_WIDTH else 1)))
  {
    var j, r := WhitespaceEnd(s, i), Next(d, s, i);
    WhitespaceStep(d, s, i);
    WhitespaceRunShape(s, i);
    assert r.end == j;
  }

  /** The run WhitespaceEnd gives, stated without Next: its value and the cursor after it. */
  lemma WhitespaceRunShape(s: string, i: nat)
    requires i < |s| && IsWhitespace(s[i])
    ensures var j := WhitespaceEnd(s, i);
      i < j <= |s| &&
      (forall k :: i <= k < j ==> SameWhitespace(s[k], s[i])) &&
      (j == |s| || !SameWhitespace(s[j], s[i])) &&
      (IsLineBreak(s[i]) ==> PosAt(s, j) == Pos(PosAt(s, i).line + |LineBreakText(s, i, j)|, 0)) &&
      (!IsLineBreak(s[i]) ==>
        PosAt(s, j) == Pos(PosAt(s, i).line, PosAt(s, i).col + (j - i) * (if s[i] == '\t' then TAB_WIDTH else 1)))
  {
    var j := WhitespaceEnd(s, i);
    WhitespaceEndIsRun(s, i);
    if IsLineBreak(s[i]) {
      assert SameWhitespace(s[j - 1], s[i]);
      LinesCount(s, i, j);
      ColumnAfterBreak(s, j - 1);
    } else {
      assert forall k :: i <= k < j ==> s[k] == s[i] by {
        forall k | i <= k < j ensures s[k] == s[i] {
          assert SameWhitespace(s[k], s[i]);
        }
      }
      SameCharAdvance(s, i, j, s[i]);
    }
  }

  /** The whitespace step at i is the run WhitespaceEnd gives. */
  lemma WhitespaceStep(d: Dialect, s: string, i: nat)
    requires i < |s| && IsWhitespace(s[i])
    ensures IsLineBreak(s[i]) ==> Next(d, s, i) == Lexed(Whitespace, Str(LineBreakText(s, i, WhitespaceEnd(s, i))), WhitespaceEnd(s, i))
    ensures !IsLineBreak(s[i]) ==> Next(d, s, i) == Lexed(Whitespace, Str(s[i..WhitespaceEnd(s, i)]), WhitespaceEnd(s, i))
  {
  }

  /** Whatever kind of line break s[k] is, the cursor after it is at column 0. */
  lemma ColumnAfterBreak(s: string, k: nat)
    requires k < |s| && IsLineBreak(s[k])
    ensures PosAt(s, k + 1).col == 0
  {
    if IsPairedLineFeed(s, k) {
      assert PosAt(s, k) == StepAt(PosAt(s, k - 1), s, k - 1);
    }
  }

  /** A run of spaces or of tabs advances the column by 1 or 4 per character. */
  lemma {:induction false} SameCharAdvance(s: string, i: nat, j: nat, c: char)
    requires i <= j <= |s| && (c == ' ' || c == '\t')
    requires forall k :: i <= k < j ==> s[k] == c
    ensures PosAt(s, j) == Pos(PosAt(s, i).line, PosAt(s, i).col + (j - i) * (if c == '\t' then TAB_WIDTH else 1))
    decreases j - i
  {
    if i < j {
      SameCharAdvance(s, i, j - 1, c);
    }
  }

  // ---------------------------------------------------------------------------------------
  // Strings and quoted words

  /** A single-quoted string is a token exactly when a closing quote follows; its value is the
      text up to the first closing quote, without the quotes, while its span includes both. */
  lemma SingleQuoted(d: Dialect, s: string, i: nat)
    requires i < |s| && s[i] == '\''
    ensures var r := Next(d, s, i);
      (r.Lexed? <==> exists k :: i < k < |s| && s[k] == '\'') &&
      (r.Lexed? ==>
        r.kind == SingleQuotedString && s[r.end - 1] == '\'' && r.value == Str(s[i + 1..r.end - 1]) &&
        forall k :: i < k < r.end - 1 ==> s[k] != '\'') &&
      (r.Failed? ==> r == Failed(UnterminatedString, |s|))
  {
    var j := FindChar(s, i + 1, '\'');
    if j == |s| {
      assert forall k :: i < k < |s| ==> s[k] != '\'';
    }
  }

  /** N'...' (or n'...') is a national string literal; the prefix and the quotes are not part of
      its value. */
  lemma NationalString(d: Dialect, s: string, i: nat)
    requires i < |s| && IsNationalStart(s, i)
    ensures var r := Next(d, s, i);
      (r.Lexed? <==> exists k :: i + 1 < k < |s| && s[k] == '\'') &&
      (r.Lexed? ==>
        r.kind == NationalStringLiteral && s[r.end - 1] == '\'' && r.value == Str(s[i + 2..r.end - 1]) &&
        forall k :: i + 1 < k < r.end - 1 ==> s[k] != '\'') &&
      (r.Failed? ==> r == Failed(UnterminatedString, |s|))
  {
    var j := FindChar(s, i + 2, '\'');
    if j == |s| {
      assert forall k :: i + 1 < k < |s| ==> s[k] != '\'';
    }
  }

  /** A double-quoted word is a word: its value is the text between the quotes, it is
      classified as a keyword like any word, and its quote style is '"'. */
  lemma DoubleQuotedWord(d: Dialect, s: string, i: nat)
    requires i < |s| && s[i] == '"'
    ensures var r := Next(d, s, i);
      (r.Lexed? <==> exists k :: i < k < |s| && s[k] == '"') &&
      (r.Lexed? ==>
        var w := s[i + 1..r.end - 1];
        r.kind == SQLKeyword && s[r.end - 1] == '"' &&
        r.value == Word(SQLWord(w, Keyword(d, w), Some('"'))) &&
        forall k :: i < k < r.end - 1 ==> s[k] != '"') &&
      (r.Failed? ==> r == Failed(UnterminatedQuotedIdentifier, |s|))
  {
    var j := FindChar(s, i + 1, '"');
    if j == |s| {
      assert forall k :: i < k < |s| ==> s[k] != '"';
    }
  }

  // ---------------------------------------------------------------------------------------
  // Words

  /** A word starts with an identifier-start character and runs over identifier-part
      characters as far as possible; it keeps its spelling and is classified by the dialect's
      keywords, whatever its letter case. */
  lemma PlainWord(d: Dialect, s: string, i: nat)
    requires i < |s| && d.isIdentifierStart(s[i])
    requires !IsWhitespace(s[i]) && s[i] != '\'' && s[i] != '"' && !IsNationalStart(s, i)
    ensures var r := Next(d, s, i);
      r.Lexed? && r.kind == SQLKeyword &&
      r.value == Word(SQLWord(s[i..r.end], Keyword(d, s[i..r.end]), None)) &&
      (forall k :: i < k < r.end ==> d.isIdentifierPart(s[k])) &&
      (r.end == |s| || !d.isIdentifierPart(s[r.end]))
  {
  }

  /** Quoting does not change keyword classification: a word w and the quoted "w" give the same
      keyword; only the quote style and the span differ. */
  lemma KeywordUnderQuoting(d: Dialect, w: string)
    requires w != [] && d.isIdentifierStart(w[0]) && forall k :: 1 <= k < |w| ==> d.isIdentifierPart(w[k])
    requires !IsWhitespace(w[0]) && w[0] != '\'' && w[0] != '"' && !IsNationalStart(w, 0)
    requires forall k :: 0 <= k < |w| ==> w[k] != '"'
    ensures Lex(d, w, 0).tokens ==
      [Token(SQLKeyword, Word(SQLWord(w, Keyword(d, w), None)), START, PosAt(w, |w|))]
    ensures Lex(d, "\"" + w + "\"", 0).tokens ==
      [Token(SQLKeyword, Word(SQLWord(w, Keyword(d, w), Some('"'))), START, PosAt("\"" + w + "\"", |w| + 2))]
  {
    PlainWordStep(d, w);
    QuotedWordStep(d, w);
    SingleTokenScan(d, w, Word(SQLWord(w, Keyword(d, w), None)));
    SingleTokenScan(d, "\"" + w + "\"", Word(SQLWord(w, Keyword(d, w), Some('"'))));
  }

  /** A source that is one identifier is one word. */
  lemma PlainWordStep(d: Dialect, w: string)
    requires w != [] && d.isIdentifierStart(w[0]) && forall k :: 1 <= k < |w| ==> d.isIdentifierPart(w[k])
    requires !IsWhitespace(w[0]) && w[0] != '\'' && w[0] != '"' && !IsNationalStart(w, 0)
    ensures Next(d, w, 0) == Lexed(SQLKeyword, Word(SQLWord(w, Keyword(d, w), None)), |w|)
  {
    PlainWord(d, w, 0);
    assert w[0..|w|] == w;
  }

  /** "w" in double quotes is one quoted word, whatever w's characters other than '"'. */
  lemma QuotedWordStep(d: Dialect, w: string)
    requires forall k :: 0 <= k < |w| ==> w[k] != '"'
    ensures Next(d, "\"" + w + "\"", 0) == Lexed(SQLKeyword, Word(SQLWord(w, Keyword(d, w), Some('"'))), |w| + 2)
  {
    var q := "\"" + w + "\"";
    assert q[0] == '"' && q[|w| + 1] == '"';
    assert FindChar(q, 1, '"') == |w| + 1 by {
      assert forall k :: 1 <= k < |w| + 1 ==> q[k] == w[k - 1];
    }
    assert q[1..|w| + 1] == w;
  }

  /** A source that is exactly one word token scans to that token alone. */
  lemma SingleTokenScan(d: Dialect, s: string, v: Value)
    requires s != [] && Next(d, s, 0) == Lexed(SQLKeyword, v, |s|)
    ensures Lex(d, s, 0).tokens == [Token(SQLKeyword, v, START, PosAt(s, |s|))]
  {
    assert Lex(d, s, |s|) == Scan([], None, |s|);
  }

  // ---------------------------------------------------------------------------------------
  // Numbers

  /** A number is a maximal run of digits with at most one '.' followed by digits; a '.' that
      is not followed by a digit is not part of it. */
  lemma NumberLiteral(d: Dialect, s: string, i: nat)
    requires i < |s| && IsDigit(s[i]) && !d.isIdentifierStart(s[i])
    ensures var r := Next(d, s, i);
      r.Lexed? && r.kind == Number && r.value == Str(s[i..r.end]) && IsNumeral(s[i..r.end]) &&
      (r.end < |s| ==> !IsDigit(s[r.end])) &&
      (r.end + 1 < |s| && s[r.end] == '.' && IsDigit(s[r.end + 1]) ==> '.' in s[i..r.end])
  {
    NumberEndIsNumeral(s, i);
  }

  // ---------------------------------------------------------------------------------------
  // Comments

  /** "--" starts a comment that runs to the end of the line (the line break is not part of
      it) or of the input; its value leaves out the two dashes. */
  lemma LineComment(d: Dialect, s: string, i: nat)
    requires i + 1 < |s| && s[i] == '-' && s[i + 1] == '-' && !d.isIdentifierStart('-')
    ensures var r := Next(d, s, i);
      r.Lexed? && r.kind == Comment && r.value == Str(s[i + 2..r.end]) &&
      (forall k :: i + 2 <= k < r.end ==> !IsLineBreak(s[k])) &&
      (r.end == |s| || IsLineBreak(s[r.end]))
  {
  }

  /** A block comment runs to the first closing star-slash after its opening; its value is the
      text between, line breaks included. Without a close it is an error. */
  lemma BlockComment(d: Dialect, s: string, i: nat)
    requires i + 1 < |s| && s[i] == '/' && s[i + 1] == '*' && !d.isIdentifierStart('/')
    ensures var r := Next(d, s, i);
      (r.Lexed? <==> exists k :: i + 2 <= k < |s| && IsCloseAt(s, k)) &&
      (r.Lexed? ==>
        r.kind == Comment && i + 4 <= r.end && IsCloseAt(s, r.end - 2) && r.value == Str(s[i + 2..r.end - 2]) &&
        forall k :: i + 2 <= k < r.end - 2 ==> !IsCloseAt(s, k)) &&
      (r.Failed? ==> r == Failed(UnterminatedComment, |s|))
  {
  }

  // ---------------------------------------------------------------------------------------
  // Operators and punctuation

  /** An operator is found at i exactly when a one- or two-character symbol starts there. */
  lemma OperatorFound(s: string, i: nat)
    requires i < |s|
    ensures Operator(s, i).Some? <==> [s[i]] in SYMBOLS || (i + 1 < |s| && [s[i], s[i + 1]] in SYMBOLS)
  {
    if i + 1 < |s| {
      assert s[i..i + 2] == [s[i], s[i + 1]];
    }
  }

  /** A two-character match is the symbol s[i..i + 2], with that symbol's kind. */
  lemma TwoCharacterMatch(s: string, i: nat)
    requires i + 1 < |s|
    ensures Operator(s, i).Some? && Operator(s, i).value.1 == 2 ==>
      s[i..i + 2] in SYMBOLS && SYMBOLS[s[i..i + 2]] == Operator(s, i).value.0
  {
    assert s[i..i + 2] == [s[i], s[i + 1]];
  }

  /** A one-character match is the symbol [s[i]], with that symbol's kind, and no
      two-character symbol starts at i. */
  lemma OneCharacterMatch(s: string, i: nat)
    requires i < |s|
    ensures Operator(s, i).Some? && Operator(s, i).value.1 == 1 ==>
      s[i..i + 1] in SYMBOLS && SYMBOLS[s[i..i + 1]] == Operator(s, i).value.0 &&
      !(i + 1 < |s| && [s[i], s[i + 1]] in SYMBOLS)
  {
    assert s[i..i + 1] == [s[i]];
    OneCharacterSymbol(s, i);
    if i + 1 < |s| {
      NoTwoCharacterSymbol(s, i);
    }
  }

  /** A one-character match is the symbol [s[i]] with its kind. */
  lemma OneCharacterSymbol(s: string, i: nat)
    requires i < |s|
    ensures Operator(s, i).Some? && Operator(s, i).value.1 == 1 ==>
      [s[i]] in SYMBOLS && SYMBOLS[[s[i]]] == Operator(s, i).value.0
  {
  }

  /** A one-character match is only taken when no two-character symbol starts at i. */
  lemma NoTwoCharacterSymbol(s: string, i: nat)
    requires i + 1 < |s|
    ensures Operator(s, i).Some? && Operator(s, i).value.1 == 1 ==> [s[i], s[i + 1]] !in SYMBOLS
  {
  }

  /** Operator matching is longest match over SYMBOLS: the text matched is a symbol, the kind
      is that symbol's, and a one-character match is only taken when no two-character symbol
      starts there. */
  lemma LongestMatch(s: string, i: nat)
    requires i < |s|
    ensures Operator(s, i).Some? ==>
      var n := Operator(s, i).value.1;
      s[i..i + n] in SYMBOLS && SYMBOLS[s[i..i + n]] == Operator(s, i).value.0 &&
      (n == 1 ==> !(i + 1 < |s| && [s[i], s[i + 1]] in SYMBOLS))
  {
    if i + 1 < |s| {
      TwoCharacterMatch(s, i);
    }
    OneCharacterMatch(s, i);
  }

  /** Where no earlier rule applies, the token is the longest matching symbol, with the
      symbol's text as its value; a character that starts nothing is an error and is not
      consumed. */
  lemma Punctuation(d: Dialect, s: string, i: nat)
    requires i < |s| && !IsWhitespace(s[i]) && s[i] != '\'' && s[i] != '"' && !IsNationalStart(s, i)
    requires !d.isIdentifierStart(s[i]) && !IsDigit(s[i])
    requires !(i + 1 < |s| && s[i] == '-' && s[i + 1] == '-')
    requires !(i + 1 < |s| && s[i] == '/' && s[i + 1] == '*')
    ensures var r := Next(d, s, i);
      (r.Lexed? <==> Operator(s, i).Some?) &&
      (r.Lexed? ==>
        (r.end - i in {1, 2} && s[i..r.end] in SYMBOLS &&
         r.kind == SYMBOLS[s[i..r.end]] && r.value == Str(s[i..r.end]))) &&
      (r.Failed? ==> r == Failed(InvalidCharacter(s[i]), i))
  {
    OperatorFound(s, i);
    LongestMatch(s, i);
  }
}
