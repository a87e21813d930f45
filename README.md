# sqltoken: a verified model of xsqlparser's SQL tokenizer

The `sqltoken` package of koron/xsqlparser turns SQL text into a list of tokens. These are
whitespace runs, words (reserved or not, quoted or not), string literals, national string
literals (`N'...'`), numbers, comments, and operator and punctuation symbols. Each token carries
the position where it starts and the position where it ends. A position is a 1-based line and a
0-based column. A tab counts four columns. A line break moves to column 0 of the next line, and
`"\r\n"` counts as one line break. When the scan succeeds, `Tokenize` leaves the tokenizer's
`Pos()` just past the input. An unterminated literal or comment also leaves it there. When
the scan stops at an invalid character, `Pos()` is the position of that character.

The package is known here through its test file, `sqltoken/tokenizer_test.go`. The model is
built so that every expectation in that file holds. Two rules that the tests leave open are
this model's own choices, and "## Left out" lists both:
- whitespace tokens are maximal runs of one class;
- a number is digits, optionally followed by `.` and more digits.

A `.` with no digit after it is a `Period` token, as the case `1.1-.` expects.

Modules:

- `Positions` (`positions.dfy`) holds the cursor. `PosAt(s, i)` is the position after
  consuming `s[..i]`. Lemmas about it cover line counting, column widths and monotonicity.
- `Dialects` (`dialect.dfy`) describes the dialect: identifier-start and identifier-part
  predicates plus a set of reserved words. It also defines case-insensitive keyword lookup.
  Concrete dialects are parameters.
- `Tokens` (`token.dfy`) holds token kinds, words, values, tokens and errors.
- `Lexer` (`lexer.dfy`) states the tokenizer's rules as functions. `Next` gives the one token
  found at an offset. `Lex` gives the whole scan, with positions.
- `LexerProperties` (`lexer_props.dfy`) proves what those rules promise:
  - the tokens cover the input contiguously;
  - every token kind has its expected shape;
  - operators are matched longest first.
- `Tokenizing` (`tokenizer.dfy`) is the tokenizer object. Its fields are the offset, the
  line and the column. `Tokenize` consumes characters one at a time and appends tokens. It is
  proved to produce exactly `Lex`, and to leave `Pos()` at the cursor over the consumed input.
- `Conformance` (`conformance.dfy`) describes the dialects the tests rely on:
  - ASCII letters start and continue words;
  - digits and `_` only continue them;
  - no whitespace, quote or symbol character belongs to a word;
  - `SELECT` and `NOT` are reserved.

  It also holds lemmas that evaluate `Next` on given characters.
- `TokenizeCases` (`tokenize_cases.dfy`) restates every case of `TestTokenizer_Tokenize` as a
  lemma over all conforming dialects. Each lemma gives the exact token list (kind, value, from,
  to) and shows that there is no error.
- `PosCases` (`pos_cases.dfy`) restates every case of `TestTokenizer_Pos`. Each lemma shows
  that the scan succeeds and gives the cursor position after it.

## Model

| member | source | states |
|---|---|---|
| Positions.CursorStep | sqltoken/tokenizer_test.go:33-69 | one character moves the cursor: a line start goes to column 0 of the next line, the "\n" of "\r\n" does not move it, any other character moves the column by its width (a tab is 4) |
| Positions.PosAt | sqltoken/tokenizer_test.go:33-69 | the cursor over a prefix is always on a line ≥ 1 at a column ≥ 0 |
| Positions.LinesCount | sqltoken/tokenizer_test.go:33-69 | the line advances by exactly the number of line starts consumed ("\r\n" and a lone "\r" or "\n" each start one) |
| Positions.ColumnWidth | sqltoken/tokenizer_test.go:52-69 | on a stretch without line breaks the column advances by the visual width of the text (a tab is 4) |
| Positions.PlainAdvance | sqltoken/tokenizer_test.go:22-32 | without tabs or line breaks each character moves the cursor one column |
| Positions.BreakStartsLine | sqltoken/tokenizer_test.go:33-51 | a line start puts the cursor at column 0 of the next line |
| Positions.Monotone | sqltoken/tokenizer_test.go:461-490 | the cursor never moves back, and moves strictly forward over any character other than the "\n" of "\r\n" |
| Dialects.ToUpper | sqltoken/tokenizer_test.go:109-123 | upper-casing keeps the length and upper-cases each character |
| Dialects.Keyword | sqltoken/tokenizer_test.go:109-123 | a word's keyword is "" or a reserved word equal to it up to case; a word whose upper-case form is reserved gets that form; keywords hold no lower-case letter |
| Dialects.KeywordIgnoresCase | sqltoken/tokenizer_test.go:109-151 | words equal up to letter case have the same keyword |
| Lexer.RunEnd | sqltoken/tokenizer_test.go:22-69 | the end of the longest run satisfying a predicate: everything before it satisfies it, the character at it does not |
| Lexer.WhitespaceEndIsRun | sqltoken/tokenizer_test.go:22-69 | a whitespace token ends after the longest run of characters of the same class as its first: everything before the end is of that class, the character at the end is not |
| Lexer.NumberEndIsNumeral | sqltoken/tokenizer_test.go:232-315 | a number token is digits with an optional '.' and digits, is never followed by a digit, and takes in a '.' that has a digit after it |
| Lexer.MakeWordClassifies | sqltoken/tokenizer_test.go:109-151 | a word keeps its text and quote style; it has a keyword exactly when its upper-case form is reserved, and the keyword is that form |
| Lexer.FindChar | sqltoken/tokenizer_test.go:124-151 | the first occurrence of a character at or after an offset, or the end of the input |
| Lexer.CommentClose | sqltoken/tokenizer_test.go:218-231 | the first star-slash at or after an offset, or the end of the input |
| Lexer.LineBreakText | sqltoken/tokenizer_test.go:33-69 | a run of line breaks has the value "\n" once per line it starts |
| Lexer.Operator | sqltoken/tokenizer_test.go:232-459 | an operator match is one or two characters long and lies within the input |
| Lexer.Next | sqltoken/tokenizer_test.go:21-459 | a token found at an offset is non-empty and within the input; an invalid character is not consumed |
| Lexer.NextFailure | sqltoken/tokenizer_test.go:461-490 | a failed step is an invalid-character error on the character at the offset, which it does not consume, or an unterminated literal that runs to the end of the input |
| Lexer.Lex | sqltoken/tokenizer_test.go:461-490 | a scan stops within the input, and at its end when there is no error |
| Lexer.Cuts | sqltoken/tokenizer_test.go:461-490 | the token boundaries of a scan start at its start offset and lie within the input |
| LexerProperties.Coverage | sqltoken/tokenizer_test.go:461-490 | token k is what Next finds at cut k and reaches cut k + 1; its From and To are the cursor at those cuts; no error exactly when the last cut is the end, and an error is the one Next reports at the last cut |
| LexerProperties.Contiguity | sqltoken/tokenizer_test.go:461-490 | the first token starts at 1:0, each token starts where the previous ends, no token ends before it starts, and without error the last ends at the final cursor |
| LexerProperties.CoverCons | sqltoken/tokenizer_test.go:461-490 | a token that reaches the first cut of a covered scan, put in front of it, gives a covered scan from the token's start |
| LexerProperties.ScanStop | sqltoken/tokenizer_test.go:603-613 | a scan stopped by an invalid character stops at that character, inside the input; any other scan, with or without error, stops at the end of the input, so Pos() is the cursor after the input |
| LexerProperties.WhitespaceRun | sqltoken/tokenizer_test.go:22-69 | whitespace is a maximal run of one class; line breaks give one "\n" per line and column 0 of the line below; n spaces move n columns, n tabs 4n |
| LexerProperties.WhitespaceRunShape | sqltoken/tokenizer_test.go:22-69 | the run WhitespaceEnd gives is maximal and of one class; after a run of line breaks the cursor is at column 0, one line down per line started; after n spaces or tabs it is n or 4n columns on |
| LexerProperties.ColumnAfterBreak | sqltoken/tokenizer_test.go:33-69 | after any line break, including the "\n" of "\r\n", the column is 0 |
| LexerProperties.SameCharAdvance | sqltoken/tokenizer_test.go:52-69 | a run of spaces or tabs advances the column by 1 or 4 per character |
| LexerProperties.SingleQuoted | sqltoken/tokenizer_test.go:124-135 | a quoted string is a token exactly when a closing quote follows; its value is the text between the quotes, its span includes them; otherwise the error is an unterminated string |
| LexerProperties.NationalString | sqltoken/tokenizer_test.go:70-108 | N'...' is a national string literal whose value leaves out the prefix and the quotes; unterminated is an error |
| LexerProperties.DoubleQuotedWord | sqltoken/tokenizer_test.go:136-151 | a double-quoted word is a word with the text between the quotes, the keyword of that text and quote style '"'; unterminated is an error |
| LexerProperties.PlainWord | sqltoken/tokenizer_test.go:109-123 | a word is a maximal identifier run, kept as spelled, with the dialect's keyword for it |
| LexerProperties.PlainWordStep | sqltoken/tokenizer_test.go:109-123 | an input that is one identifier is one step: a word with its keyword and no quote style, spanning the input |
| LexerProperties.QuotedWordStep | sqltoken/tokenizer_test.go:136-151 | a text without '"' in double quotes is one step: a word with that text, its keyword and quote style '"', spanning the quotes |
| LexerProperties.SingleTokenScan | sqltoken/tokenizer_test.go:109-151 | an input that one word step spans scans to exactly that one token, from 1:0 to the cursor after the input |
| LexerProperties.KeywordUnderQuoting | sqltoken/tokenizer_test.go:109-151 | a word and the same word in double quotes scan to single tokens with the same keyword; only quote style and span differ |
| LexerProperties.NumberLiteral | sqltoken/tokenizer_test.go:232-315 | a number is digits with at most one '.' that has digits after it; it is never followed by a digit, and a '.' with digits after it ends up inside it |
| LexerProperties.LineComment | sqltoken/tokenizer_test.go:182-193 | "--" runs to the end of the line or input, leaving out the line break; its value leaves out the dashes |
| LexerProperties.BlockComment | sqltoken/tokenizer_test.go:218-231 | a block comment is a token exactly when a close follows; it runs to the first close and its value is the text between the delimiters; otherwise the error is an unterminated comment |
| LexerProperties.OperatorFound | sqltoken/tokenizer_test.go:232-459 | an operator is found exactly when a one- or two-character symbol starts at the offset |
| LexerProperties.TwoCharacterMatch | sqltoken/tokenizer_test.go:316-417 | a two-character match is that symbol with its kind |
| LexerProperties.OneCharacterMatch | sqltoken/tokenizer_test.go:340-381 | a one-character match is that symbol with its kind, and no two-character symbol starts there |
| LexerProperties.LongestMatch | sqltoken/tokenizer_test.go:340-417 | operator matching is longest match over the symbol table |
| LexerProperties.Punctuation | sqltoken/tokenizer_test.go:232-459 | where no earlier rule applies the token is the longest matching symbol, valued by its text; a character that starts nothing is an invalid-character error and is not consumed |
| Conformance.AsciiDialectConforms | sqltoken/tokenizer_test.go:465 | a dialect with the word rules and reserved words the tests rely on exists |
| Conformance.KeywordOf | sqltoken/tokenizer_test.go:99-117 | a word that upper-cases to SELECT or NOT has that keyword in a conforming dialect |
| Conformance.ReservedWords | sqltoken/tokenizer_test.go:99-145 | "select", "SELECT" and "NOT" have the keywords SELECT, SELECT and NOT |
| Conformance.SpacesAt | sqltoken/tokenizer_test.go:22-32 | a run of spaces followed by a non-space is one whitespace token with the run as value |
| Conformance.TabsAt | sqltoken/tokenizer_test.go:52-69 | a run of tabs followed by a non-tab is one whitespace token with the run as value |
| Conformance.LineBreaksAt | sqltoken/tokenizer_test.go:33-69 | a run of line breaks is one whitespace token with one "\n" per line |
| Conformance.WordAt | sqltoken/tokenizer_test.go:109-123 | a letter and the word characters after it, up to a symbol or the end, are one word token with its keyword |
| Conformance.IntegerAt | sqltoken/tokenizer_test.go:152-217 | digits not followed by a digit or '.' are one number token |
| Conformance.DecimalAt | sqltoken/tokenizer_test.go:232-315 | digits, '.', digits are one number token |
| Conformance.SymbolAt | sqltoken/tokenizer_test.go:232-459 | a symbol character that starts no other token is the operator Operator gives, valued by its text |
| Conformance.SingleQuotedAt | sqltoken/tokenizer_test.go:124-135 | a quote, text without quotes, a quote: a string token valued by the text |
| Conformance.NationalAt | sqltoken/tokenizer_test.go:70-108 | N, a quote, text, a quote: a national string token valued by the text |
| Conformance.DoubleQuotedAt | sqltoken/tokenizer_test.go:136-151 | a double-quoted text is a word with that text, its keyword and quote style '"' |
| Conformance.LineCommentAt | sqltoken/tokenizer_test.go:182-193 | "--" and the rest of the line are one comment token valued by the text after the dashes |
| Conformance.BlockCommentAt | sqltoken/tokenizer_test.go:218-231 | a block comment up to its first close is one comment token valued by the text between the delimiters |
| Tokenizing.Tokenizer.constructor | sqltoken/tokenizer_test.go:465 | a new tokenizer reads src with the dialect from offset 0 with the cursor at 1:0 |
| Tokenizing.Tokenizer.Advance | sqltoken/tokenizer_test.go:33-69 | consuming one character keeps the cursor equal to PosAt of the consumed prefix |
| Tokenizing.Tokenizer.ConsumeWhile | sqltoken/tokenizer_test.go:22-32 | consumes exactly the run RunEnd describes and returns it |
| Tokenizing.Tokenizer.ConsumeLineBreaks | sqltoken/tokenizer_test.go:33-69 | consumes the run of line breaks and returns one "\n" per line started |
| Tokenizing.Tokenizer.ConsumeUntil | sqltoken/tokenizer_test.go:124-151 | returns the text up to the first given quote and consumes the quote, or reports that there is none and consumes everything |
| Tokenizing.Tokenizer.ConsumeCommentBody | sqltoken/tokenizer_test.go:218-231 | returns the text up to the first close and consumes the close, or reports that there is none |
| Tokenizing.Tokenizer.ConsumeNumber | sqltoken/tokenizer_test.go:232-315 | consumes exactly the number NumberEnd describes and returns its text |
| Tokenizing.Tokenizer.ScanWhitespace | sqltoken/tokenizer_test.go:22-69 | returns the token Next describes and consumes exactly it |
| Tokenizing.Tokenizer.ScanString | sqltoken/tokenizer_test.go:124-135 | returns the token or error Next describes and consumes exactly it |
| Tokenizing.Tokenizer.ScanQuotedWord | sqltoken/tokenizer_test.go:136-151 | returns the token or error Next describes and consumes exactly it |
| Tokenizing.Tokenizer.ScanNationalString | sqltoken/tokenizer_test.go:70-108 | returns the token or error Next describes and consumes exactly it |
| Tokenizing.Tokenizer.ScanWord | sqltoken/tokenizer_test.go:109-123 | returns the word Next describes and consumes exactly it |
| Tokenizing.Tokenizer.ScanLineComment | sqltoken/tokenizer_test.go:182-193 | returns the comment Next describes and consumes exactly it |
| Tokenizing.Tokenizer.ScanBlockComment | sqltoken/tokenizer_test.go:218-231 | returns the comment or error Next describes and consumes exactly it |
| Tokenizing.Tokenizer.ScanOperator | sqltoken/tokenizer_test.go:232-459 | returns the operator or invalid-character error Next describes and consumes exactly it |
| Tokenizing.Tokenizer.NextToken | sqltoken/tokenizer_test.go:21-459 | scans the token Next describes at the current offset, keeping the cursor in step |
| Tokenizing.Tokenizer.Tokenize | sqltoken/tokenizer_test.go:461-490 | returns exactly Lex's tokens and error, and leaves the offset at the scan's stop and Pos() at the cursor there |
| Tokenizing.TokenizeSource | sqltoken/tokenizer_test.go:603-613 | building a tokenizer, running Tokenize and reading Pos() gives Lex's tokens and error and the cursor at the stop, which is the end of the input when there is no error |
| TokenizeCases.TokenizeWhitespace | sqltoken/tokenizer_test.go:22-32 | " " is one whitespace token 1:0–1:1 |
| TokenizeCases.TokenizeWhitespaceAndNewLine | sqltoken/tokenizer_test.go:33-51 | a line break then a space is whitespace "\n" 1:0–2:0, then whitespace " " 2:0–2:1 |
| TokenizeCases.TokenizeWhitespaceAndTab | sqltoken/tokenizer_test.go:52-69 | "\r\n\t" is whitespace "\n" to 2:0, then a tab token to 2:4 |
| TokenizeCases.TokenizeNationalString | sqltoken/tokenizer_test.go:70-81 | N'string' is a national string "string" 1:0–1:9 |
| TokenizeCases.TokenizeNationalStringWithKeyword | sqltoken/tokenizer_test.go:82-108 | N'string' NOT gives the string, a space and the word NOT with keyword NOT |
| TokenizeCases.TokenizeIdent | sqltoken/tokenizer_test.go:109-123 | select is a word "select" with keyword SELECT 1:0–1:6 |
| TokenizeCases.TokenizeSingleQuoteString | sqltoken/tokenizer_test.go:124-135 | 'test' is a string "test" 1:0–1:6 |
| TokenizeCases.TokenizeQuotedString | sqltoken/tokenizer_test.go:136-151 | "SELECT" in double quotes is a word SELECT, keyword SELECT, quote style '"', 1:0–1:8 |
| TokenizeCases.TokenizeParentsWithNumber | sqltoken/tokenizer_test.go:152-181 | (123), is LParen 1:0–1:1, number "123" 1:1–1:4, RParen 1:4–1:5, comma 1:5–1:6 |
| TokenizeCases.TokenizeMinusComment | sqltoken/tokenizer_test.go:182-193 | -- test is one comment " test" 1:0–1:7 |
| TokenizeCases.TokenizeMinusOperator | sqltoken/tokenizer_test.go:194-217 | 1-3 is number "1", minus, number "3": the '-' is not part of a number |
| TokenizeCases.TokenizeBlockComment | sqltoken/tokenizer_test.go:218-231 | the three-line block comment is one comment token, valued by the text between the delimiters, 1:0–3:10 |
| TokenizeCases.TokenizeOperators | sqltoken/tokenizer_test.go:232-315 | 1/1*1+1%1=1.1-. gives the listed operators and numbers; 1.1 is one number, the trailing '.' a period |
| TokenizeCases.TokenizeNeq | sqltoken/tokenizer_test.go:316-339 | 1!=2 is number, != as Neq, number |
| TokenizeCases.TokenizeLts | sqltoken/tokenizer_test.go:340-363 | <<=<> is Lt, LtEq, Neq |
| TokenizeCases.TokenizeGts | sqltoken/tokenizer_test.go:364-381 | >>= is Gt, GtEq |
| TokenizeCases.TokenizeColons | sqltoken/tokenizer_test.go:382-417 | :1::1; is colon, number, double colon, number, semicolon |
| TokenizeCases.TokenizeOthers | sqltoken/tokenizer_test.go:418-459 | \[{&}] is backslash, brackets, braces and ampersand |
| PosCases.OperandSteps | sqltoken/tokenizer_test.go:538-550 | in "1 op 1" the first and last characters are each a number token "1" |
| PosCases.SpaceSteps | sqltoken/tokenizer_test.go:538-550 | in "1 op 1" the characters around the operator are each a whitespace token " " |
| PosCases.OperatorSteps | sqltoken/tokenizer_test.go:538-550 | "1 op 1" with an operator n characters long scans as number "1", whitespace " ", the operator with its kind and text, whitespace " ", number "1", ending at offsets 1, 2, n + 2, n + 3 and n + 4 |
| PosCases.OperatorScan | sqltoken/tokenizer_test.go:538-550 | five consecutive tokens over "1 op 1" make a scan without error |
| PosCases.OperatorCursor | sqltoken/tokenizer_test.go:538-550 | after "1 op 1" the cursor is at 1:(4 + length of op) |
| PosCases.OperatorBetweenNumbers | sqltoken/tokenizer_test.go:538-550 | for any operator op, "1 op 1" scans without error and Pos() is 1:(4 + length of op) |
| PosCases.OperatorPlus | sqltoken/tokenizer_test.go:500-502 | "1 + 1" ends at 1:5 |
| PosCases.OperatorMinus | sqltoken/tokenizer_test.go:503-505 | "1 - 1" ends at 1:5 |
| PosCases.OperatorMod | sqltoken/tokenizer_test.go:506-508 | "1 % 1" ends at 1:5 |
| PosCases.OperatorMult | sqltoken/tokenizer_test.go:509-511 | "1 * 1" ends at 1:5 |
| PosCases.OperatorDiv | sqltoken/tokenizer_test.go:512-514 | "1 / 1" ends at 1:5 |
| PosCases.OperatorGt | sqltoken/tokenizer_test.go:515-517 | "1 > 1" ends at 1:5 |
| PosCases.OperatorEq | sqltoken/tokenizer_test.go:518-520 | "1 = 1" ends at 1:5 |
| PosCases.OperatorLt | sqltoken/tokenizer_test.go:521-523 | "1 < 1" ends at 1:5 |
| PosCases.OperatorLtEq | sqltoken/tokenizer_test.go:524-527 | "1 <= 1" ends at 1:6 |
| PosCases.OperatorNeq | sqltoken/tokenizer_test.go:528-531 | "1 <> 1" ends at 1:6 |
| PosCases.OperatorGtEq | sqltoken/tokenizer_test.go:532-535 | "1 >= 1" ends at 1:6 |
| PosCases.PosMultiline | sqltoken/tokenizer_test.go:563-567 | "1+1", a line break, "asdf" scans without error and ends at 2:4 |
| PosCases.PosSingleLineComment | sqltoken/tokenizer_test.go:568-572 | "-- comments" ends at 1:11 |
| PosCases.PosStatements | sqltoken/tokenizer_test.go:573-577 | "select count(id) from account" ends at 1:29 |
| PosCases.PosMultilineStatements | sqltoken/tokenizer_test.go:578-584 | the three-line statement, trailing space included, ends at 3:24 |
| PosCases.PosMultilineComment | sqltoken/tokenizer_test.go:585-592 | the four-line block comment ends at 4:2 |
| PosCases.PosSingleLineBlockComment | sqltoken/tokenizer_test.go:593-597 | "/* asdf */" ends at 1:10 |
| PosCases.PosCommentInsideSql | sqltoken/tokenizer_test.go:598-602 | the statement with a block comment inside ends at 1:57 |

## Left out

- Reading from an `io.Reader`: the model reads a whole string. Buffering and peeking do not change which tokens are produced.
- The concrete `GenericSQLDialect`: the dialect package is not part of this model. The dialect is a parameter. The restated test cases hold for every dialect that satisfies `Conforms`, which is all the tests rely on.
- The test driver code (`t.Run`, `reflect.DeepEqual`, `cmp.Diff`): each case is a lemma instead.
- Doubled-quote escapes inside strings, backtick or bracket quoting, and non-ASCII letters: the tests do not fix their behaviour. Strings end at the first closing quote, and only `"` delimits a quoted word.
- Error messages and error positions: errors are the generic `ErrorKind` values. The tests only check that there are none.
- What `Tokenize` returns besides the error when it fails is not fixed by the tests. The model keeps the tokens scanned before the error.
- Lexer.WhitespaceEnd: one whitespace token per maximal run of one class (spaces, tabs, line breaks) is this model's choice. The tests have only single-character or single-class inputs, and one token per character would fit them too.
- Lexer.NumberEnd: digits with an optional `.` and more digits is this model's choice. The tests (`1.1-.`, `123`, `1-3`) do not rule out other rules, such as exponents or a leading `.`.
- Line and column are unbounded integers. Go's `int` overflow cannot happen on inputs that fit in memory.
- PosCases.PosStatements, PosCases.PosMultilineStatements, PosCases.PosCommentInsideSql: state the cursor and the absence of error, as the tests check. They do not state the keyword of each word, because words such as `count`, `from` and `where` depend on the dialect's full keyword list.
