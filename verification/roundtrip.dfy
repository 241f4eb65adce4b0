/** Reading back printed expressions.

    `Print` writes an expression as canonical filter text: one space on each side of `=`,
    `AND` and `OR`, none around `.`, and parentheses for a `Group`. Canonical text spells
    its expression (`ChainPrintSpells`), so every expression the grammar can produce is read
    back by the grammar as exactly that expression, which pins down precedence (OR loosest,
    then AND, `=`, `.`) and the left-associativity of every chain. */
module RoundTrip {
  import opened Chars
  import opened Syntax
  import opened Grammar
  import opened Spelling

  function Gap(op: Op): string {
    if op == DrillDown then "" else " "
  }

  /** Canonical filter text for an expression. */
  function Print(e: Expr): string {
    match e
    case Num(t) => t
    case Str(t) => "'" + t + "'"
    case Loc(n) => n
    case Group(x) => "(" + Print(x) + ")"
    case Apply(op, l, r) => Print(l) + Gap(op) + OpText(op) + Gap(op) + Print(r)
  }

  predicate AllWhiteSpace(w: string) {
    forall i :: 0 <= i < |w| ==> IsWhiteSpace(w[i])
  }

  // ---------------------------------------------------------------- first characters

  /** A chain's text starts with a character that is not whitespace; a path's with a letter. */
  lemma {:induction false} ChainStart(op: Op, e: Expr)
    requires IsChain(op, e)
    ensures |Print(e)| > 0 && !IsWhiteSpace(Print(e)[0])
    ensures op == DrillDown ==> IsLetter(Print(e)[0])
    decreases e, Weight(op), 1
  {
    if e.Apply? && e.op == op {
      ChainStart(op, e.left);
      assert Print(e)[0] == Print(e.left)[0];
    } else {
      match op
      case DrillDown => assert Print(e) == e.name;
      case Eq => OperandStart(e);
      case And => ChainStart(Eq, e);
      case Or => ChainStart(And, e);
    }
  }

  /** An operand's text starts with the character that selects its alternative. */
  lemma {:induction false} OperandStart(e: Expr)
    requires IsOperand(e)
    ensures |Print(e)| > 0 && StartsLike(e, Print(e)[0]) && !IsWhiteSpace(Print(e)[0])
    decreases e, 1, 1
  {
    match e
    case Group(x) =>
    case Num(t) =>
    case Str(t) =>
    case _ => ChainStart(DrillDown, e);
  }

  lemma ChainOperandStart(op: Op, e: Expr)
    requires IsChainOperand(op, e)
    ensures |Print(e)| > 0 && !IsWhiteSpace(Print(e)[0])
  {
    ChainOperandIsChain(op, e);
    ChainStart(op, e);
  }

  // ---------------------------------------------------------------- what may follow

  lemma PathCanEnd(e: Expr, s: string, q: nat)
    requires IsChain(DrillDown, e) && q < |s| && !IsLetter(s[q])
    ensures CanEnd(e, s, q)
  {
  }

  // ---------------------------------------------------------------- the layout of a printed chain
  // Positions are passed as parameters, tied to the text by equations in the requires
  // clauses, so that the facts established at one position are found at the next.

  /** Where the five pieces of `L + g + w + g + R` lie. */
  lemma FivePieces(s: string, a: nat, L: string, g: string, w: string, R: string,
                   ql: nat, qo: nat, qe: nat, qr: nat)
    requires StartsWith(s, a, L + g + w + g + R)
    requires ql == a + |L| && qo == ql + |g| && qe == qo + |w| && qr == qe + |g|
    ensures StartsWith(s, a, L)
    ensures StartsWith(s, ql, g)
    ensures StartsWith(s, qo, w)
    ensures StartsWith(s, qe, g)
    ensures StartsWith(s, qr, R)
  {
    StartsWithConcat(s, a, L + g + w + g, R);
    StartsWithConcat(s, a, L + g + w, g);
    StartsWithConcat(s, a, L + g, w);
    StartsWithConcat(s, a, L, g);
  }

  /** Whitespace skipping over the gap around an operator. */
  lemma SkipGap(op: Op, s: string, q: nat, q': nat, t: string)
    requires q' == q + |Gap(op)|
    requires StartsWith(s, q, Gap(op)) && StartsWith(s, q', t)
    requires |t| > 0 && !IsWhiteSpace(t[0])
    ensures SkipWhiteSpace(s, q) == q'
    ensures op != DrillDown ==> q < |s| && IsWhiteSpace(s[q])
  {
    assert s[q' + 0] == t[0];
    if op != DrillDown {
      assert s[q + 0] == Gap(op)[0];
    }
    SpanIs(WhiteSpace, s, q, q');
  }

  /** In `L + g + w + g + R` the two operands are where they should be, and the right one
      starts at a character that is not whitespace. */
  lemma OperandsAround(op: Op, L: string, R: string, s: string, a: nat,
                       ql: nat, qo: nat, qe: nat, qr: nat)
    requires |R| > 0 && !IsWhiteSpace(R[0])
    requires StartsWith(s, a, L + Gap(op) + OpText(op) + Gap(op) + R)
    requires ql == a + |L| && qo == ql + |Gap(op)| && qe == qo + |OpText(op)| && qr == qe + |Gap(op)|
    ensures StartsWith(s, a, L) && StartsWith(s, qr, R)
    ensures SkipWhiteSpace(s, qr) == qr
  {
    FivePieces(s, a, L, Gap(op), OpText(op), R, ql, qo, qe, qr);
    assert s[qr + 0] == R[0];
    SpanIs(WhiteSpace, s, qr, qr);
  }

  /** The gaps on both sides of the operator are skipped as whitespace. */
  lemma GapsAround(op: Op, L: string, R: string, s: string, a: nat,
                   ql: nat, qo: nat, qe: nat, qr: nat)
    requires |R| > 0 && !IsWhiteSpace(R[0])
    requires StartsWith(s, a, L + Gap(op) + OpText(op) + Gap(op) + R)
    requires ql == a + |L| && qo == ql + |Gap(op)| && qe == qo + |OpText(op)| && qr == qe + |Gap(op)|
    ensures qr <= |s| && StartsWith(s, qo, OpText(op))
    ensures SkipWhiteSpace(s, ql) == qo && SkipWhiteSpace(s, qe) == qr
    ensures op != DrillDown ==> ql < |s| && IsWhiteSpace(s[ql])
  {
    FivePieces(s, a, L, Gap(op), OpText(op), R, ql, qo, qe, qr);
    SkipGap(op, s, ql, qo, OpText(op));
    SkipGap(op, s, qe, qr, R);
  }

  /** The operator after the left operand ends it and starts no tighter operator. */
  lemma OperatorEndsLeft(op: Op, l: Expr, s: string, ql: nat, qo: nat)
    requires IsChain(op, l) && ql <= qo <= |s|
    requires SkipWhiteSpace(s, ql) == qo && StartsWith(s, qo, OpText(op))
    requires op == DrillDown || (ql < |s| && IsWhiteSpace(s[ql]))
    requires op == DrillDown ==> ql == qo
    ensures Follows(Strength(op) + 1, l, s, ql)
  {
    assert s[qo + 0] == OpText(op)[0];
    StopsAt(Strength(op) + 1, s, ql);
    if op == DrillDown {
      PathCanEnd(l, s, ql);
    } else {
      CanEndBefore(l, s, ql);
    }
  }

  // ---------------------------------------------------------------- canonical text spells its expression

  /** A chain's canonical text spells it, ending where the text ends. */
  lemma {:induction false} ChainPrintSpells(op: Op, e: Expr, s: string, a: nat)
    requires IsChain(op, e) && StartsWith(s, a, Print(e))
    ensures SpellEnd(e, s, a) == Some(a + |Print(e)|)
    decreases e, Weight(op), 1
  {
    if e.Apply? && e.op == op {
      var L, R := Print(e.left), Print(e.right);
      var ql := a + |L|;
      var qo := ql + |Gap(op)|;
      var qe := qo + |OpText(op)|;
      var qr := qe + |Gap(op)|;
      ChainOperandStart(op, e.right);
      OperandsAround(op, L, R, s, a, ql, qo, qe, qr);
      GapsAround(op, L, R, s, a, ql, qo, qe, qr);
      OperatorEndsLeft(op, e.left, s, ql, qo);
      ChainPrintSpells(op, e.left, s, a);
      SubPrintSpells(op, e.right, s, qr);
    } else {
      SubPrintSpells(op, e, s, a);
    }
  }

  lemma {:induction false} SubPrintSpells(op: Op, e: Expr, s: string, a: nat)
    requires IsChainOperand(op, e) && StartsWith(s, a, Print(e))
    ensures SpellEnd(e, s, a) == Some(a + |Print(e)|)
    decreases e, Weight(op), 0
  {
    match op
    case DrillDown =>
    case Eq => OperandPrintSpells(e, s, a);
    case And => ChainPrintSpells(Eq, e, s, a);
    case Or => ChainPrintSpells(And, e, s, a);
  }

  lemma {:induction false} OperandPrintSpells(e: Expr, s: string, a: nat)
    requires IsOperand(e) && StartsWith(s, a, Print(e))
    ensures SpellEnd(e, s, a) == Some(a + |Print(e)|)
    decreases e, 1, 0
  {
    match e
    case Group(x) =>
      var a1 := a + 1;
      var q := a1 + |Print(x)|;
      StartsWithConcat(s, a, "(" + Print(x), ")");
      StartsWithConcat(s, a, "(", Print(x));
      assert s[a + 0] == "("[0];
      assert s[q + 0] == ")"[0];
      ChainStart(Or, x);
      assert s[a1 + 0] == Print(x)[0];
      SpanIs(WhiteSpace, s, a1, a1);
      SpanIs(WhiteSpace, s, q, q);
      ChainPrintSpells(Or, x, s, a1);
    case Num(t) =>
    case Str(t) =>
    case _ => ChainPrintSpells(DrillDown, e, s, a);
  }

  // ---------------------------------------------------------------- whole inputs

  lemma PaddedStart(w1: string, t: string, w2: string)
    requires AllWhiteSpace(w1) && AllWhiteSpace(w2) && |t| > 0 && !IsWhiteSpace(t[0])
    ensures StartsWith(w1 + t + w2, |w1|, t)
    ensures SkipWhiteSpace(w1 + t + w2, 0) == |w1|
    ensures SkipWhiteSpace(w1 + t + w2, |w1| + |t|) == |w1 + t + w2|
  {
    var s := w1 + t + w2;
    assert s[|w1|..|w1| + |t|] == t;
    StartsWithSlice(s, |w1|, t);
    SpanIs(WhiteSpace, s, 0, |w1|);
    SpanIs(WhiteSpace, s, |w1| + |t|, |s|);
  }

  /** NumberConst trims: a decimal text with whitespace around it reads as the bare text. */
  lemma NumberConstTrims(w1: string, t: string, w2: string)
    requires AllWhiteSpace(w1) && AllWhiteSpace(w2) && IsDecimalText(t)
    ensures NumberConst(w1 + t + w2, 0) == Success(t, |w1 + t + w2|)
  {
    var s := w1 + t + w2;
    var b := |w1| + |t|;
    PaddedStart(w1, t, w2);
    if b < |s| {
      assert s[b] == w2[0];
    }
    DecimalReads(s, |w1|, t, b);
  }

  /** StringConst trims: a quoted text with whitespace around it reads as the text between
      the quotes. */
  lemma StringConstTrims(w1: string, t: string, w2: string)
    requires AllWhiteSpace(w1) && AllWhiteSpace(w2) && HasNoQuote(t)
    ensures StringConst(w1 + ("'" + t + "'") + w2, 0) == Success(t, |w1| + |t| + 2 + |w2|)
  {
    var q := "'" + t + "'";
    var s := w1 + q + w2;
    PaddedStart(w1, q, w2);
    QuotedReads(s, |w1|, t, |w1| + |q|);
  }

  /** Locator trims: a run of letters with whitespace around it reads as the letters. */
  lemma LocatorTrims(w1: string, n: string, w2: string)
    requires AllWhiteSpace(w1) && AllWhiteSpace(w2) && IsLocatorName(n)
    ensures Locator(w1 + n + w2, 0) == Success(n, |w1 + n + w2|)
  {
    var s := w1 + n + w2;
    var b := |w1| + |n|;
    PaddedStart(w1, n, w2);
    if b < |s| {
      assert s[b] == w2[0];
    }
    LettersReads(s, |w1|, n, b);
  }

  /** Canonical text after leading whitespace, with only whitespace after it, is read by
      the chain as its expression, using the whole input. */
  lemma PrintedReads(op: Op, e: Expr, s: string, a: nat)
    requires IsChain(op, e) && a <= |s| && SkipWhiteSpace(s, 0) == a && StartsWith(s, a, Print(e))
    requires SkipWhiteSpace(s, a + |Print(e)|) == |s|
    ensures Chain(op, s, 0) == Success(e, |s|)
  {
    ChainPrintSpells(op, e, s, a);
    CanEndBeforeBlank(e, s, a + |Print(e)|);
    ChainReadsExactly(op, e, s);
  }

  /** Any expression a chain can produce, printed with any whitespace before and after
      it, is read back by that chain as exactly that expression, using the whole input. */
  lemma ChainReadsPadded(op: Op, w1: string, e: Expr, w2: string)
    requires IsChain(op, e) && AllWhiteSpace(w1) && AllWhiteSpace(w2)
    ensures Chain(op, w1 + Print(e) + w2, 0) == Success(e, |w1| + |Print(e)| + |w2|)
  {
    ChainStart(op, e);
    PaddedStart(w1, Print(e), w2);
    PrintedReads(op, e, w1 + Print(e) + w2, |w1|);
  }

  /** Term reads back the printed form of anything it produces: printing and reparsing
      is the identity on parse results. */
  lemma TermReadsItsOwnOutput(s: string, pos: nat)
    requires pos <= |s| && Term(s, pos).Success?
    ensures var e := Term(s, pos).value; Term(Print(e), 0) == Success(e, |Print(e)|)
  {
    var e := Term(s, pos).value;
    ChainReadsPadded(Or, "", e, "");
    assert "" + Print(e) + "" == Print(e);
  }
}
