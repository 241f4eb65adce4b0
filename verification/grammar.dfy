/** The filter-expression grammar (the static `Grammar` class).

    Every rule is a function from the input text and a position to a `Result`: the value
    built and the position where the unconsumed rest of the input begins, or `Failure`.
    Like the original rules, none of them demands that the input be used up. */
module Grammar {
  import opened Chars
  import opened Syntax

  datatype Result<T> = Success(value: T, pos: nat) | Failure

  /** `.Token()`: whitespace before the item has been skipped by the caller; here the
      whitespace after it is consumed, all of it, and the item is kept. */
  function Token<T>(s: string, item: Result<T>): (r: Result<T>)
    requires item.Success? ==> item.pos <= |s|
    ensures r.Success? <==> item.Success?
    ensures r.Success? ==> r.value == item.value && item.pos <= r.pos <= |s|
    ensures r.Success? ==> forall i :: item.pos <= i < r.pos ==> IsWhiteSpace(s[i])
    ensures r.Success? && r.pos < |s| ==> !IsWhiteSpace(s[r.pos])
  {
    if item.Success? then
      SpanAll(WhiteSpace, s, item.pos);
      Success(item.value, SkipWhiteSpace(s, item.pos))
    else Failure
  }

  // ---------------------------------------------------------------- atoms

  /** A decimal text ending at `q` that the decimal rule could not have extended. */
  predicate EndsDecimal(s: string, q: nat, t: string) {
    q == |s| || (q < |s| && !IsDigit(s[q]) && ('.' in t || s[q] != '.'))
  }

  /** `Parse.DecimalInvariant`: digits optionally followed by `.` and digits, or `.` and
      digits. Once a `.` after the leading digits has been consumed, digits must follow:
      `12.` is not a decimal at all (it does not fall back to `12`). */
  function Decimal(s: string, pos: nat): (r: Result<string>)
    requires pos <= |s|
    ensures r.Success? ==> pos < r.pos <= |s| && r.value == s[pos..r.pos] && IsDecimalText(r.value)
    ensures r.Success? ==> EndsDecimal(s, r.pos, r.value)
  {
    var q := Span(Digit, s, pos);
    SpanAll(Digit, s, pos);
    if q < |s| && s[q] == '.' then
      var f := Span(Digit, s, q + 1);
      SpanAll(Digit, s, q + 1);
      if f > q + 1 then
        var t := s[pos..f];
        assert t[q - pos] == '.';
        assert forall i :: 0 <= i < |t| && i != q - pos ==> IsDigit(t[i]);
        Success(t, f)
      else Failure
    else if q > pos then Success(s[pos..q], q)
    else Failure
  }

  /** A maximal decimal text at `pos` is exactly what Decimal returns. */
  lemma DecimalReads(s: string, pos: nat, t: string, end: nat)
    requires StartsWith(s, pos, t) && IsDecimalText(t) && end == pos + |t| && EndsDecimal(s, end, t)
    ensures Decimal(s, pos) == Success(t, end)
  {
    if k :| 0 <= k < |t| && t[k] == '.' {
      DecimalReadsPoint(s, pos, t, end, k);
    } else {
      forall i | pos <= i < end ensures IsDigit(s[i]) {
        assert s[pos + (i - pos)] == t[i - pos];
      }
      SpanIs(Digit, s, pos, end);
      StartsWithSlice(s, pos, t);
    }
  }

  lemma DecimalReadsPoint(s: string, pos: nat, t: string, end: nat, k: nat)
    requires StartsWith(s, pos, t) && IsDecimalText(t) && end == pos + |t| && EndsDecimal(s, end, t)
    requires k < |t| && t[k] == '.'
    ensures Decimal(s, pos) == Success(t, end)
  {
    var q := pos + k;
    forall i | pos <= i < q ensures IsDigit(s[i]) {
      assert s[pos + (i - pos)] == t[i - pos];
    }
    assert s[pos + k] == t[k];
    SpanIs(Digit, s, pos, q);
    forall i | q + 1 <= i < end ensures IsDigit(s[i]) {
      assert s[pos + (i - pos)] == t[i - pos];
    }
    SpanIs(Digit, s, q + 1, end);
    StartsWithSlice(s, pos, t);
  }

  /** The text between two single quotes, with no escapes: `'` cannot occur inside. */
  function Quoted(s: string, pos: nat): (r: Result<string>)
    requires pos <= |s|
    ensures r.Success? ==> pos + 2 <= r.pos <= |s| && StartsWith(s, pos, "'" + r.value + "'")
    ensures r.Success? ==> HasNoQuote(r.value)
  {
    if pos < |s| && s[pos] == '\'' then
      var q := Span(NotQuote, s, pos + 1);
      SpanAll(NotQuote, s, pos + 1);
      if q < |s| then
        StartsWithSlice(s, pos + 1, s[pos + 1..q]);
        StartsWithConcat(s, pos, "'", s[pos + 1..q]);
        StartsWithConcat(s, pos, "'" + s[pos + 1..q], "'");
        Success(s[pos + 1..q], q + 1)
      else Failure
    else Failure
  }

  lemma QuotedReads(s: string, pos: nat, t: string, end: nat)
    requires StartsWith(s, pos, "'" + t + "'") && HasNoQuote(t) && end == pos + |t| + 2
    ensures Quoted(s, pos) == Success(t, end)
  {
    StartsWithConcat(s, pos, "'" + t, "'");
    StartsWithConcat(s, pos, "'", t);
    StartsWithSlice(s, pos + 1, t);
    assert s[pos + 0] == "'"[0];
    assert s[pos + 1 + |t| + 0] == "'"[0];
    SpanIs(NotQuote, s, pos + 1, pos + 1 + |t|);
  }

  /** A quote that is never closed is not a string literal. */
  lemma QuotedUnterminated(s: string, pos: nat)
    requires pos < |s| && s[pos] == '\'' && HasNoQuote(s[pos + 1..])
    ensures Quoted(s, pos) == Failure
  {
    forall i | pos + 1 <= i < |s| ensures s[i] != '\'' {
      assert s[i] == s[pos + 1..][i - pos - 1];
    }
  }

  /** `Parse.Letter.AtLeastOnce().Text()`. */
  function Letters(s: string, pos: nat): (r: Result<string>)
    requires pos <= |s|
    ensures r.Success? ==> pos < r.pos <= |s| && r.value == s[pos..r.pos] && IsLocatorName(r.value)
    ensures r.Success? ==> r.pos == |s| || !IsLetter(s[r.pos])
  {
    var q := Span(Letter, s, pos);
    SpanAll(Letter, s, pos);
    if q > pos then Success(s[pos..q], q) else Failure
  }

  lemma LettersReads(s: string, pos: nat, n: string, end: nat)
    requires StartsWith(s, pos, n) && IsLocatorName(n) && end == pos + |n|
    requires end == |s| || (end < |s| && !IsLetter(s[end]))
    ensures Letters(s, pos) == Success(n, end)
  {
    StartsWithSlice(s, pos, n);
    SpanIs(Letter, s, pos, pos + |n|);
  }

  /** NumberConst (`Parse.DecimalInvariant.Token()`): the decimal text found after the
      leading whitespace, unchanged; the trailing whitespace is consumed. */
  function NumberConst(s: string, pos: nat): (r: Result<string>)
    requires pos <= |s|
    ensures r.Success? ==>
      var a := SkipWhiteSpace(s, pos);
      && IsDecimalText(r.value) && StartsWith(s, a, r.value)
      && EndsDecimal(s, a + |r.value|, r.value)
      && r.pos == SkipWhiteSpace(s, a + |r.value|)
  {
    Token(s, Decimal(s, SkipWhiteSpace(s, pos)))
  }

  /** StringConst: the characters between the quotes, which contain no quote; the
      whitespace around the literal is consumed. */
  function StringConst(s: string, pos: nat): (r: Result<string>)
    requires pos <= |s|
    ensures r.Success? ==>
      var a := SkipWhiteSpace(s, pos);
      && HasNoQuote(r.value) && StartsWith(s, a, "'" + r.value + "'")
      && r.pos == SkipWhiteSpace(s, a + |r.value| + 2)
  {
    Token(s, Quoted(s, SkipWhiteSpace(s, pos)))
  }

  /** Locator: one or more letters, whitespace around it consumed. */
  function Locator(s: string, pos: nat): (r: Result<string>)
    requires pos <= |s|
    ensures r.Success? ==>
      var a := SkipWhiteSpace(s, pos);
      && IsLocatorName(r.value) && StartsWith(s, a, r.value)
      && (a + |r.value| == |s| || !IsLetter(s[a + |r.value|]))
      && r.pos == SkipWhiteSpace(s, a + |r.value|)
  {
    Token(s, Letters(s, SkipWhiteSpace(s, pos)))
  }

  /** `Operator(op, opName)`: the operator text as a token, returning the operator's tag. */
  function Operator(op: Op, s: string, pos: nat): (r: Result<Op>)
    requires pos <= |s|
    ensures r.Success? ==> r.value == op && pos < r.pos <= |s|
    ensures r.Success? <==> StartsWith(s, SkipWhiteSpace(s, pos), OpText(op))
  {
    var a := SkipWhiteSpace(s, pos);
    if StartsWith(s, a, OpText(op)) then Success(op, SkipWhiteSpace(s, a + |OpText(op)|))
    else Failure
  }

  // ---------------------------------------------------------------- operands and chains

  /** Which alternative of Operand can start with character `c`. */
  predicate StartsLike(e: Expr, c: char) {
    match e
    case Group(_) => c == '('
    case Num(_) => IsDigit(c) || c == '.'
    case Str(_) => c == '\''
    case _ => IsLetter(c)
  }

  /** The first alternative of Operand: `( Term )` with whitespace around it. */
  function Grouped(s: string, pos: nat): (r: Result<Expr>)
    requires pos <= |s|
    ensures r.Success? ==> pos < r.pos <= |s| && r.value.Group? && IsChain(Or, r.value.inner)
    ensures r.Success? ==> SkipWhiteSpace(s, pos) < |s| && s[SkipWhiteSpace(s, pos)] == '('
    decreases |s| - pos, 1, 0
  {
    var a := SkipWhiteSpace(s, pos);
    if a < |s| && s[a] == '(' then
      var inner := Chain(Or, s, a + 1);
      if inner.Success? && inner.pos < |s| && s[inner.pos] == ')' then
        Success(Group(inner.value), SkipWhiteSpace(s, inner.pos + 1))
      else Failure
    else Failure
  }

  /** Operand: a parenthesised Term, a number, a string or a path, tried in that order.
      The first non-blank character decides which alternative can succeed. */
  function Operand(s: string, pos: nat): (r: Result<Expr>)
    requires pos <= |s|
    ensures r.Success? ==> pos < r.pos <= |s| && IsOperand(r.value)
    ensures r.Success? ==>
      SkipWhiteSpace(s, pos) < |s| && StartsLike(r.value, s[SkipWhiteSpace(s, pos)])
    decreases |s| - pos, 1, 1
  {
    var grouped := Grouped(s, pos);
    if grouped.Success? then grouped
    else
      var number := NumberConst(s, pos);
      if number.Success? then Success(Num(number.value), number.pos)
      else
        var str := StringConst(s, pos);
        if str.Success? then Success(Str(str.value), str.pos)
        else Chain(DrillDown, s, pos)
  }

  /** The operand rule each chain is built on: Locator for Path, Operand for Condition,
      Condition for InnerTerm and InnerTerm for Term. */
  function ChainOperand(op: Op, s: string, pos: nat): (r: Result<Expr>)
    requires pos <= |s|
    ensures r.Success? ==> pos < r.pos <= |s| && IsChainOperand(op, r.value)
    decreases |s| - pos, Weight(op), 0
  {
    match op
    case DrillDown =>
      var n := Locator(s, pos);
      if n.Success? then Success(Loc(n.value), n.pos) else Failure
    case Eq => Operand(s, pos)
    case And => Chain(Eq, s, pos)
    case Or => Chain(And, s, pos)
  }

  /** `Parse.ChainOperator(op, operand, Apply)`: one operand is required, then each
      operator that is followed by an operand folds that operand in on the right. */
  function Chain(op: Op, s: string, pos: nat): (r: Result<Expr>)
    requires pos <= |s|
    ensures r.Success? <==> ChainOperand(op, s, pos).Success?
    ensures r.Success? ==> pos < r.pos <= |s| && IsChain(op, r.value)
    ensures r.Success? ==> HasLeftSpine(op, r.value, ChainOperand(op, s, pos).value)
    decreases |s| - pos, Weight(op), 1
  {
    var first := ChainOperand(op, s, pos);
    if first.Success? then
      ChainOperandIsChain(op, first.value);
      ChainRest(op, s, first.value, first.pos)
    else Failure
  }

  /** The repetition inside ChainOperator, with running result `acc`. An operator with
      no operand after it is not consumed: the running result is returned as it stands. */
  function ChainRest(op: Op, s: string, acc: Expr, pos: nat): (r: Result<Expr>)
    requires pos <= |s|
    ensures r.Success? && pos <= r.pos <= |s|
    ensures HasLeftSpine(op, r.value, acc)
    ensures IsChain(op, acc) ==> IsChain(op, r.value)
    decreases |s| - pos, Weight(op), 0
  {
    var o := Operator(op, s, pos);
    if o.Failure? then Success(acc, pos)
    else
      var x := ChainOperand(op, s, o.pos);
      if x.Failure? then Success(acc, pos)
      else
        var r := ChainRest(op, s, Apply(o.value, acc, x.value), x.pos);
        HasLeftSpineStep(op, r.value, acc, x.value);
        r
  }

  /** Path: locators joined by `.`. */
  function Path(s: string, pos: nat): (r: Result<Expr>)
    requires pos <= |s|
    ensures r.Success? ==> pos < r.pos <= |s| && IsChain(DrillDown, r.value)
  {
    Chain(DrillDown, s, pos)
  }

  /** Condition: operands joined by `=`. */
  function Condition(s: string, pos: nat): (r: Result<Expr>)
    requires pos <= |s|
    ensures r.Success? ==> pos < r.pos <= |s| && IsChain(Eq, r.value)
  {
    Chain(Eq, s, pos)
  }

  /** InnerTerm: conditions joined by `AND`. */
  function InnerTerm(s: string, pos: nat): (r: Result<Expr>)
    requires pos <= |s|
    ensures r.Success? ==> pos < r.pos <= |s| && IsChain(And, r.value)
  {
    Chain(And, s, pos)
  }

  /** Term: inner terms joined by `OR`; the entry rule. */
  function Term(s: string, pos: nat): (r: Result<Expr>)
    requires pos <= |s|
    ensures r.Success? ==> pos < r.pos <= |s| && IsChain(Or, r.value)
  {
    Chain(Or, s, pos)
  }
}
