/** The tokenizer object: built over a source and a dialect, it holds the reading offset and
    the line/column cursor, and Tokenize scans character by character, appending tokens. */
module Tokenizing {
  import opened Positions
  import opened Dialects
  import opened Tokens
  import opened Lexer

  class Tokenizer {
    const dialect: Dialect
    /** The source being read; offset is how much of it has been consumed. */
    const src: string
    var offset: nat
    var line: int
    var col: int

    /** The cursor always describes the consumed prefix of the source. */
    ghost predicate Valid()
      reads this
    {
      offset <= |src| && Pos() == PosAt(src, offset)
    }

    constructor (src: string, dialect: Dialect)
      ensures this.src == src && this.dialect == dialect
      ensures offset == 0 && Pos() == START && Valid()
    {
      this.src := src;
      this.dialect := dialect;
      offset := 0;
      line := 1;
      col := 0;
    }

    /** The cursor: the position just past the last consumed character. */
    function Pos(): Positions.Pos
      reads this
    {
      Positions.Pos(line, col)
    }

    /** Consumes one character and moves the cursor by the cursor rule. */
    method Advance()
      requires Valid() && offset < |src|
      modifies this
      ensures Valid() && offset == old(offset) + 1
    {
      var c := src[offset];
      if IsPairedLineFeed(src, offset) {
      } else if IsLineBreak(c) {
        line, col := line + 1, 0;
      } else if c == '\t' {
        col := col + TAB_WIDTH;
      } else {
        col := col + 1;
      }
      offset := offset + 1;
    }

    /** Consumes characters while p holds, collecting them. */
    method ConsumeWhile(p: char -> bool) returns (text: string)
      requires Valid()
      modifies this
      ensures Valid() && offset == RunEnd(src, old(offset), p)
      ensures text == src[old(offset)..offset]
    {
      text := "";
      while offset < |src| && p(src[offset])
        invariant Valid() && old(offset) <= offset
        invariant RunEnd(src, offset, p) == RunEnd(src, old(offset), p)
        invariant text == src[old(offset)..offset]
        decreases |src| - offset
      {
        text := text + [src[offset]];
        Advance();
      }
    }

    /** Consumes a run of line breaks; the collected text has one "\n" per line started. */
    method ConsumeLineBreaks() returns (text: string)
      requires Valid()
      modifies this
      ensures Valid() && offset == RunEnd(src, old(offset), IsLineBreak)
      ensures text == LineBreakText(src, old(offset), offset)
    {
      text := "";
      while offset < |src| && IsLineBreak(src[offset])
        invariant Valid() && old(offset) <= offset
        invariant RunEnd(src, offset, IsLineBreak) == RunEnd(src, old(offset), IsLineBreak)
        invariant text == LineBreakText(src, old(offset), offset)
        decreases |src| - offset
      {
        if IsBreakAt(src, offset) {
          text := text + "\n";
        }
        Advance();
      }
    }

    /** Consumes everything up to the first q; then consumes q itself if there is one. */
    method ConsumeUntil(q: char) returns (text: string, closed: bool)
      requires Valid()
      modifies this
      ensures Valid()
      ensures var j := FindChar(src, old(offset), q);
        text == src[old(offset)..j] && closed == (j < |src|) && offset == (if closed then j + 1 else |src|)
    {
      text := "";
      while offset < |src| && src[offset] != q
        invariant Valid() && old(offset) <= offset
        invariant FindChar(src, offset, q) == FindChar(src, old(offset), q)
        invariant text == src[old(offset)..offset]
        decreases |src| - offset
      {
        text := text + [src[offset]];
        Advance();
      }
      closed := offset < |src|;
      if closed {
        Advance();
      }
    }

    /** Consumes a block comment's body up to its close, then the close itself if there is one. */
    method ConsumeCommentBody() returns (text: string, closed: bool)
      requires Valid()
      modifies this
      ensures Valid()
      ensures var j := CommentClose(src, old(offset));
        text == src[old(offset)..j] && closed == (j < |src|) && offset == (if closed then j + 2 else |src|)
    {
      text := "";
      while offset < |src| && !IsCloseAt(src, offset)
        invariant Valid() && old(offset) <= offset
        invariant CommentClose(src, offset) == CommentClose(src, old(offset))
        invariant text == src[old(offset)..offset]
        decreases |src| - offset
      {
        text := text + [src[offset]];
        Advance();
      }
      closed := offset < |src|;
      if closed {
        Advance();
        Advance();
      }
    }

    /** Consumes a number: digits, and '.' with more digits when a digit follows the '.'. */
    method ConsumeNumber() returns (text: string)
      requires Valid()
      modifies this
      ensures Valid() && offset == NumberEnd(src, old(offset))
      ensures text == src[old(offset)..offset]
    {
      text := ConsumeWhile(IsDigit);
      if offset + 1 < |src| && src[offset] == '.' && IsDigit(src[offset + 1]) {
        Advance();
        var fraction := ConsumeWhile(IsDigit);
        text := text + "." + fraction;
      }
    }

    /** Whitespace: a run of spaces, of tabs, or of line breaks. */
    method ScanWhitespace() returns (step: Step)
      requires Valid() && offset < |src| && IsWhitespace(src[offset])
      modifies this
      ensures Valid()
      ensures step == Next(dialect, src, old(offset)) && offset == step.end
    {
      var c := src[offset];
      var text;
      if IsLineBreak(c) {
        text := ConsumeLineBreaks();
      } else if IsSpace(c) {
        text := ConsumeWhile(IsSpace);
      } else {
        text := ConsumeWhile(IsTab);
      }
      step := Lexed(Whitespace, Str(text), offset);
    }

    /** A single-quoted string; its value is the text between the quotes. */
    method ScanString() returns (step: Step)
      requires Valid() && offset < |src| && src[offset] == '\''
      modifies this
      ensures Valid()
      ensures step == Next(dialect, src, old(offset)) && offset == step.end
    {
      Advance();
      var text, closed := ConsumeUntil('\'');
      step := if closed then Lexed(SingleQuotedString, Str(text), offset) else Failed(UnterminatedString, offset);
    }

    /** A double-quoted word; the quotes do not change its classification. */
    method ScanQuotedWord() returns (step: Step)
      requires Valid() && offset < |src| && src[offset] == '"'
      modifies this
      ensures Valid()
      ensures step == Next(dialect, src, old(offset)) && offset == step.end
    {
      Advance();
      var text, closed := ConsumeUntil('"');
      step := if closed then Lexed(SQLKeyword, Word(MakeWord(dialect, text, Some('"'))), offset)
              else Failed(UnterminatedQuotedIdentifier, offset);
    }

    /** A national string literal N'...'; its value is the text between the quotes. */
    method ScanNationalString() returns (step: Step)
      requires Valid() && offset < |src| && IsNationalStart(src, offset)
      modifies this
      ensures Valid()
      ensures step == Next(dialect, src, old(offset)) && offset == step.end
    {
      Advance();
      Advance();
      var text, closed := ConsumeUntil('\'');
      step := if closed then Lexed(NationalStringLiteral, Str(text), offset) else Failed(UnterminatedString, offset);
    }

    /** An unquoted word: an identifier start, then identifier parts. */
    method ScanWord() returns (step: Step)
      requires Valid() && offset < |src|
      requires !IsWhitespace(src[offset]) && src[offset] != '\'' && src[offset] != '"'
      requires !IsNationalStart(src, offset) && dialect.isIdentifierStart(src[offset])
      modifies this
      ensures Valid()
      ensures step == Next(dialect, src, old(offset)) && offset == step.end
    {
      var c := src[offset];
      ghost var start := offset;
      Advance();
      var rest := ConsumeWhile(dialect.isIdentifierPart);
      assert [c] + rest == src[start..offset];
      step := Lexed(SQLKeyword, Word(MakeWord(dialect, [c] + rest, None)), offset);
    }

    /** "--" up to (not including) the end of the line. */
    method ScanLineComment() returns (step: Step)
      requires Valid() && offset + 1 < |src| && src[offset] == '-' && src[offset + 1] == '-'
      requires !dialect.isIdentifierStart(src[offset])
      modifies this
      ensures Valid()
      ensures step == Next(dialect, src, old(offset)) && offset == step.end
    {
      Advance();
      Advance();
      var text := ConsumeWhile(NotLineBreak);
      step := Lexed(Comment, Str(text), offset);
    }

    /** A block comment; its value is the text between the delimiters. */
    method ScanBlockComment() returns (step: Step)
      requires Valid() && offset + 1 < |src| && src[offset] == '/' && src[offset + 1] == '*'
      requires !dialect.isIdentifierStart(src[offset])
      modifies this
      ensures Valid()
      ensures step == Next(dialect, src, old(offset)) && offset == step.end
    {
      Advance();
      Advance();
      var text, closed := ConsumeCommentBody();
      step := if closed then Lexed(Comment, Str(text), offset) else Failed(UnterminatedComment, offset);
    }

    /** An operator or punctuation character, longest match first; anything else is invalid. */
    method ScanOperator() returns (step: Step)
      requires Valid() && offset < |src|
      requires !IsWhitespace(src[offset]) && src[offset] != '\'' && src[offset] != '"'
      requires !IsNationalStart(src, offset) && !dialect.isIdentifierStart(src[offset])
      requires !IsDigit(src[offset])
      requires !(src[offset] == '-' && offset + 1 < |src| && src[offset + 1] == '-')
      requires !(src[offset] == '/' && offset + 1 < |src| && src[offset + 1] == '*')
      modifies this
      ensures Valid()
      ensures step == Next(dialect, src, old(offset)) && offset == step.end
    {
      match Operator(src, offset)
      case Some((kind, n)) =>
        var text := src[offset..offset + n];
        Advance();
        if n == 2 {
          Advance();
        }
        step := Lexed(kind, Str(text), offset);
      case None =>
        step := Failed(InvalidCharacter(src[offset]), offset);
    }

    /** Scans the token at the current offset, as Next describes it. */
    method NextToken() returns (step: Step)
      requires Valid() && offset < |src|
      modifies this
      ensures Valid()
      ensures step == Next(dialect, src, old(offset)) && offset == step.end
    {
      var c := src[offset];
      if IsWhitespace(c) {
        step := ScanWhitespace();
      } else if c == '\'' {
        step := ScanString();
      } else if c == '"' {
        step := ScanQuotedWord();
      } else if IsNationalStart(src, offset) {
        step := ScanNationalString();
      } else if dialect.isIdentifierStart(c) {
        step := ScanWord();
      } else if IsDigit(c) {
        var text := ConsumeNumber();
        step := Lexed(Number, Str(text), offset);
      } else if c == '-' && offset + 1 < |src| && src[offset + 1] == '-' {
        step := ScanLineComment();
      } else if c == '/' && offset + 1 < |src| && src[offset + 1] == '*' {
        step := ScanBlockComment();
      } else {
        step := ScanOperator();
      }
    }

    /** Scans the rest of the source: the tokens found, in order, and the error that stopped
        the scan, if any. The tokens scanned before an error are kept. */
    method Tokenize() returns (tokens: seq<Token>, err: Option<ErrorKind>)
      requires Valid()
      modifies this
      ensures Valid()
      ensures var r := Lex(dialect, src, old(offset));
        tokens == r.tokens && err == r.err && offset == r.stop && Pos() == PosAt(src, r.stop)
    {
      tokens, err := [], None;
      while offset < |src|
        invariant Valid() && old(offset) <= offset
        invariant var r, rest := Lex(dialect, src, old(offset)), Lex(dialect, src, offset);
          r == Scan(tokens + rest.tokens, rest.err, rest.stop)
        decreases |src| - offset
      {
        var from := Pos();
        var step := NextToken();
        match step
        case Failed(e, _) =>
          err := Some(e);
          return;
        case Lexed(kind, value, _) =>
          tokens := tokens + [Token(kind, value, from, Pos())];
      }
    }
  }

  /** A tokenizer's whole life: built over src, run once, and its cursor read afterwards. */
  method TokenizeSource(src: string, dialect: Dialect) returns (tokens: seq<Token>, err: Option<ErrorKind>, pos: Pos)
    ensures var r := Lex(dialect, src, 0); tokens == r.tokens && err == r.err && pos == PosAt(src, r.stop)
    ensures err == None ==> pos == PosAt(src, |src|)
  {
    var t := new Tokenizer(src, dialect);
    tokens, err := t.Tokenize();
    pos := t.Pos();
  }
}
