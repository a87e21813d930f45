/** The tokenizer's cursor: a 1-based line and a 0-based visual column. */
module Positions {

  datatype Pos = Pos(line: int, col: int)

  /** Where every scan starts. */
  const START: Pos := Pos(1, 0)

  /** A tab advances the visual column by this many places. */
  const TAB_WIDTH: nat := 4

  predicate IsLineBreak(c: char) {
    c == '\n' || c == '\r'
  }

  /** s[k] is the '\n' of a "\r\n" pair; the '\r' already moved the cursor to the next line. */
  predicate IsPairedLineFeed(s: string, k: nat)
    requires k < |s|
  {
    s[k] == '\n' && k > 0 && s[k - 1] == '\r'
  }

  /** s[k] starts a new line: a '\n' on its own, or a '\r' (alone or before '\n'). */
  predicate IsBreakAt(s: string, k: nat)
    requires k < |s|
  {
    IsLineBreak(s[k]) && !IsPairedLineFeed(s, k)
  }

  /** The cursor after consuming s[k] from p. */
  function StepAt(p: Pos, s: string, k: nat): Pos
    requires k < |s|
  {
    if IsPairedLineFeed(s, k) then p
    else if IsLineBreak(s[k]) then Pos(p.line + 1, 0)
    else if s[k] == '\t' then Pos(p.line, p.col + TAB_WIDTH)
    else Pos(p.line, p.col + 1)
  }

  /** The cursor rule for one character: a line start moves to column 0 of the next line, the
      '\n' of "\r\n" does not move the cursor, and any other character moves it along its line
      by its visual width. */
  lemma CursorStep(p: Pos, s: string, k: nat)
    requires k < |s|
    ensures StepAt(p, s, k).line == p.line + (if IsBreakAt(s, k) then 1 else 0)
    ensures IsBreakAt(s, k) ==> StepAt(p, s, k).col == 0
    ensures IsPairedLineFeed(s, k) ==> StepAt(p, s, k) == p
    ensures !IsLineBreak(s[k]) ==> StepAt(p, s, k).col == p.col + Width([s[k]])
  {
  }

  /** The cursor after consuming s[..i] from START. */
  function PosAt(s: string, i: nat): (p: Pos)
    requires i <= |s|
    ensures p.line >= 1 && p.col >= 0
  {
    if i == 0 then START else StepAt(PosAt(s, i - 1), s, i - 1)
  }

  /** Lexicographic order on positions. */
  predicate Before(p: Pos, q: Pos) {
    p.line < q.line || (p.line == q.line && p.col < q.col)
  }

  predicate NotAfter(p: Pos, q: Pos) {
    Before(p, q) || p == q
  }

  /** Number of line starts in s[i..j]. */
  function Breaks(s: string, i: nat, j: nat): nat
    requires i <= j <= |s|
    decreases j - i
  {
    if i == j then 0 else Breaks(s, i, j - 1) + (if IsBreakAt(s, j - 1) then 1 else 0)
  }

  /** Visual width of a piece of text that holds no line break. */
  function Width(t: string): nat {
    if t == [] then 0 else (if t[0] == '\t' then TAB_WIDTH else 1) + Width(t[1..])
  }

  /** The line advances by exactly the number of line starts consumed. */
  lemma {:induction false} LinesCount(s: string, i: nat, j: nat)
    requires i <= j <= |s|
    ensures PosAt(s, j).line == PosAt(s, i).line + Breaks(s, i, j)
    decreases j - i
  {
    if i < j {
      LinesCount(s, i, j - 1);
    }
  }

  /** On a stretch without line breaks, the column advances by the visual width of the text. */
  lemma {:induction false} ColumnWidth(s: string, i: nat, j: nat)
    requires i <= j <= |s|
    requires forall k :: i <= k < j ==> !IsLineBreak(s[k])
    ensures PosAt(s, j) == Pos(PosAt(s, i).line, PosAt(s, i).col + Width(s[i..j]))
    decreases j - i
  {
    if i < j {
      ColumnWidth(s, i + 1, j);
      assert s[i..j][1..] == s[i + 1..j];
      assert PosAt(s, i + 1) == StepAt(PosAt(s, i), s, i);
    }
  }

  /** Without tabs, the visual width of a text is its length. */
  lemma {:induction false} WidthWithoutTabs(t: string)
    requires forall k :: 0 <= k < |t| ==> t[k] != '\t'
    ensures Width(t) == |t|
  {
    if t != [] {
      WidthWithoutTabs(t[1..]);
    }
  }

  /** On a stretch without line breaks or tabs, each character moves the cursor one column. */
  lemma PlainAdvance(s: string, i: nat, j: nat)
    requires i <= j <= |s|
    requires forall k :: i <= k < j ==> !IsLineBreak(s[k]) && s[k] != '\t'
    ensures PosAt(s, j) == Pos(PosAt(s, i).line, PosAt(s, i).col + (j - i))
  {
    ColumnWidth(s, i, j);
    WidthWithoutTabs(s[i..j]);
  }

  /** A line start puts the cursor at column 0 of the next line. */
  lemma BreakStartsLine(s: string, k: nat)
    requires k < |s| && IsBreakAt(s, k)
    ensures PosAt(s, k + 1) == Pos(PosAt(s, k).line + 1, 0)
  {
  }

  /** The cursor never moves backwards, and every character other than the '\n' of "\r\n"
      moves it strictly forwards. */
  lemma {:induction false} Monotone(s: string, i: nat, j: nat)
    requires i <= j <= |s|
    ensures NotAfter(PosAt(s, i), PosAt(s, j))
    ensures (exists k :: i <= k < j && !IsPairedLineFeed(s, k)) ==> Before(PosAt(s, i), PosAt(s, j))
    decreases j - i
  {
    if i < j {
      Monotone(s, i + 1, j);
      assert PosAt(s, i + 1) == StepAt(PosAt(s, i), s, i);
      if exists k :: i <= k < j && !IsPairedLineFeed(s, k) {
        var k :| i <= k < j && !IsPairedLineFeed(s, k);
        if k == i {
          assert Before(PosAt(s, i), PosAt(s, i + 1));
        } else {
          assert Before(PosAt(s, i + 1), PosAt(s, j));
        }
      }
    }
  }
}
