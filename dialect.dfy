/** What a SQL dialect tells the tokenizer: which characters make up identifiers and which
    (upper-case) words are reserved keywords. Concrete dialects are parameters of the model. */
module Dialects {

  datatype Dialect = Dialect(
    isIdentifierStart: char -> bool,
    isIdentifierPart: char -> bool,
    keywords: set<string>)

  predicate IsAsciiLetter(c: char) {
    ('a' <= c <= 'z') || ('A' <= c <= 'Z')
  }

  predicate IsDigit(c: char) {
    '0' <= c <= '9'
  }

  /** ASCII upper-casing of one character; everything else is left alone. */
  function UpperChar(c: char): char {
    if 'a' <= c <= 'z' then (c as int - 32) as char else c
  }

  /** ASCII upper-casing of a word, character by character. */
  function ToUpper(w: string): (u: string)
    ensures |u| == |w|
    ensures forall k :: 0 <= k < |w| ==> u[k] == UpperChar(w[k])
  {
    if w == [] then [] else [UpperChar(w[0])] + ToUpper(w[1..])
  }

  /** Two words that differ only in ASCII letter case. */
  predicate EqualFold(a: string, b: string) {
    |a| == |b| && forall k :: 0 <= k < |a| ==> UpperChar(a[k]) == UpperChar(b[k])
  }

  /** The canonical keyword a word stands for, or "" when it is not reserved. */
  function Keyword(d: Dialect, w: string): (k: string)
    ensures k != "" ==> k in d.keywords && EqualFold(k, w)
    ensures ToUpper(w) in d.keywords && w != "" ==> k == ToUpper(w)
    ensures forall c :: c in k ==> !('a' <= c <= 'z')
  {
    var u := ToUpper(w);
    if u in d.keywords then u else ""
  }

  /** Keyword lookup ignores letter case: words equal up to case have the same keyword. */
  lemma KeywordIgnoresCase(d: Dialect, a: string, b: string)
    requires EqualFold(a, b)
    ensures Keyword(d, a) == Keyword(d, b)
  {
    assert ToUpper(a) == ToUpper(b);
  }
}
