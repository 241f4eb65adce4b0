/** Character classes and scanning over the input text.
    The grammar only ever looks at single characters (Parse.Char, Parse.Letter,
    Parse.WhiteSpace, the numeric class) and at literal words (Parse.String). */
module Chars {

  /** Whitespace skipped by `.Token()` and `Parse.WhiteSpace` (the ASCII part of char.IsWhiteSpace). */
  predicate IsWhiteSpace(c: char) {
    c == ' ' || c == '\t' || c == '\n' || c == '\r' || c == '\U{0B}' || c == '\U{0C}'
  }

  /** `Parse.Letter` (the ASCII part of char.IsLetter). */
  predicate IsLetter(c: char) {
    ('a' <= c <= 'z') || ('A' <= c <= 'Z')
  }

  /** The numeric class behind `Parse.Number` (the ASCII part of char.IsNumber). */
  predicate IsDigit(c: char) {
    '0' <= c <= '9'
  }

  /** The classes that a `.Many()` / `.AtLeastOnce()` runs over in the grammar. */
  datatype CharClass = WhiteSpace | Letter | Digit | NotQuote

  predicate InClass(k: CharClass, c: char) {
    match k
    case WhiteSpace => IsWhiteSpace(c)
    case Letter => IsLetter(c)
    case Digit => IsDigit(c)
    case NotQuote => c != '\''
  }

  /** The end of the longest run of characters of class `k` starting at `pos`
      (what `Parse.Char(...).Many()` consumes: it is greedy and never fails). */
  function Span(k: CharClass, s: string, pos: nat): (q: nat)
    requires pos <= |s|
    ensures pos <= q <= |s|
    ensures q < |s| ==> !InClass(k, s[q])
    decreases |s| - pos
  {
    if pos < |s| && InClass(k, s[pos]) then Span(k, s, pos + 1) else pos
  }

  /** Every character of the run belongs to the class. */
  lemma SpanAll(k: CharClass, s: string, pos: nat)
    requires pos <= |s|
    ensures forall i :: pos <= i < Span(k, s, pos) ==> InClass(k, s[i])
    decreases |s| - pos
  {
    if pos < |s| && InClass(k, s[pos]) {
      SpanAll(k, s, pos + 1);
    }
  }

  /** A run ending at `q` in which every character belongs to `k`, and that cannot be
      extended, is exactly what Span finds. */
  lemma SpanIs(k: CharClass, s: string, pos: nat, q: nat)
    requires pos <= q <= |s|
    requires forall i :: pos <= i < q ==> InClass(k, s[i])
    requires q < |s| ==> !InClass(k, s[q])
    ensures Span(k, s, pos) == q
    decreases q - pos
  {
    if pos < q {
      SpanIs(k, s, pos + 1, q);
    }
  }

  /** Whitespace skipping, as done on both sides of every `.Token()`. */
  function SkipWhiteSpace(s: string, pos: nat): (q: nat)
    requires pos <= |s|
  {
    Span(WhiteSpace, s, pos)
  }

  lemma SkipWhiteSpaceIdempotent(s: string, pos: nat)
    requires pos <= |s|
    ensures SkipWhiteSpace(s, SkipWhiteSpace(s, pos)) == SkipWhiteSpace(s, pos)
  {
    var q := SkipWhiteSpace(s, pos);
    SpanIs(WhiteSpace, s, q, q);
  }

  /** `t` occurs in `s` at position `pos` (what `Parse.String(t)` checks). */
  predicate StartsWith(s: string, pos: nat, t: string) {
    pos + |t| <= |s| && forall i :: 0 <= i < |t| ==> s[pos + i] == t[i]
  }

  lemma StartsWithSlice(s: string, pos: nat, t: string)
    ensures StartsWith(s, pos, t) <==> pos + |t| <= |s| && s[pos..pos + |t|] == t
  {
    if pos + |t| <= |s| && s[pos..pos + |t|] == t {
      forall i | 0 <= i < |t| ensures s[pos + i] == t[i] {
        assert s[pos..pos + |t|][i] == s[pos + i];
      }
    }
  }

  lemma StartsWithConcat(s: string, pos: nat, a: string, b: string)
    ensures StartsWith(s, pos, a + b) <==> StartsWith(s, pos, a) && StartsWith(s, pos + |a|, b)
  {
    if StartsWith(s, pos, a + b) {
      forall i | 0 <= i < |a| ensures s[pos + i] == a[i] { assert (a + b)[i] == a[i]; }
      forall i | 0 <= i < |b| ensures s[pos + |a| + i] == b[i] { assert (a + b)[|a| + i] == b[i]; }
    }
  }
}
