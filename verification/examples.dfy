/** The behaviour the grammar's own examples describe, derived from the general lemmas.
    Each example lemma pins down one input: the value the rule returns, its display string
    where the grammar's examples give one, and how far the rule reads (all of the input,
    except where an operator dangles at the end and is left unread).

    Inputs with one operator, in canonical spacing, go through `ChainReadsPadded`, and
    other spacing through `ChainReadsExactly`. Inputs with several operators are read
    condition by condition, the way the chains fold them: the input is first cut into its
    conditions and operator words (`...Pieces`), the positions of its whitespace, words and
    condition ends are collected in a layout predicate, and the reading lemma works from the
    layout alone. Display strings of more than two operator nodes are written with
    `ApplyText`, the grammar's own `Apply` formatter, down to the operand texts. */
module Examples {
  import opened Chars
  import opened Syntax
  import opened Grammar
  import opened Spelling
  import opened RoundTrip

  // ---------------------------------------------------------------- NumberConst, StringConst

  lemma NumberConstWhole()
    ensures NumberConst("123", 0) == Success("123", 3)
  {
    assert "" + "123" + "" == "123";
    assert IsDecimalText("123");
    NumberConstTrims("", "123", "");
  }

  lemma NumberConstFraction()
    ensures NumberConst("123.123", 0) == Success("123.123", 7)
  {
    assert "" + "123.123" + "" == "123.123";
    assert IsDecimalText("123.123");
    NumberConstTrims("", "123.123", "");
  }

  lemma NumberConstPadded()
    ensures NumberConst(" 123.123 ", 0) == Success("123.123", 9)
  {
    assert " " + "123.123" + " " == " 123.123 ";
    assert IsDecimalText("123.123");
    NumberConstTrims(" ", "123.123", " ");
  }

  lemma StringConstBare()
    ensures StringConst("'123'", 0) == Success("123", 5)
  {
    assert "" + ("'" + "123" + "'") + "" == "'123'";
    StringConstTrims("", "123", "");
  }

  lemma StringConstPadded()
    ensures StringConst(" '123' ", 0) == Success("123", 7)
  {
    assert " " + ("'" + "123" + "'") + " " == " '123' ";
    StringConstTrims(" ", "123", " ");
  }

  // ---------------------------------------------------------------- folding a chain by hand

  /** A chain of one operand: the operand, then no operator of the chain's level. */
  lemma ChainOfOne(op: Op, s: string, p: nat, x: Expr, q: nat)
    requires p <= |s| && ChainOperand(op, s, p) == Success(x, q) && Operator(op, s, q).Failure?
    ensures Chain(op, s, p) == Success(x, q)
  {
    ChainStarts(op, s, p, x, q);
    ChainRestStops(op, s, x, q);
  }

  /** A chain of two operands: operand, operator, operand, then no further operator. */
  lemma ChainOfTwo(op: Op, s: string, p: nat, x: Expr, q0: nat, q1: nat, y: Expr, q2: nat)
    requires p <= |s| && ChainOperand(op, s, p) == Success(x, q0)
    requires Operator(op, s, q0) == Success(op, q1) && ChainOperand(op, s, q1) == Success(y, q2)
    requires Operator(op, s, q2).Failure?
    ensures Chain(op, s, p) == Success(Apply(op, x, y), q2)
  {
    ChainStarts(op, s, p, x, q0);
    ChainRestFolds(op, s, Apply(op, x, y), q0, q1, q2);
    ChainRestStops(op, s, Apply(op, x, y), q2);
  }

  // ---------------------------------------------------------------- conditions on two numbers

  /** `x = y` between two numbers, the condition most examples are built from. */
  function NumEq(x: string, y: string): Expr { Apply(Eq, Num(x), Num(y)) }

  lemma NumEqFacts(x: string, y: string)
    requires IsDecimalText(x) && IsDecimalText(y)
    ensures IsChain(Eq, NumEq(x, y)) && IsChain(And, NumEq(x, y))
    ensures Print(NumEq(x, y)) == x + " = " + y
    ensures Show(NumEq(x, y)) == ApplyText("Eq", x, y)
  {
    assert IsOperand(Num(x)) && IsOperand(Num(y));
    assert IsChain(Eq, Num(x));
    assert IsChain(Eq, NumEq(x, y));
  }

  /** The condition `x = y` read by a chain of level `=` or AND, where the text
      that follows it ends the condition. */
  lemma NumEqReads(op: Op, s: string, p: nat, a: nat, x: string, y: string, b: nat)
    requires op == Eq || op == And
    requires IsDecimalText(x) && IsDecimalText(y)
    requires p <= |s| && SkipWhiteSpace(s, p) == a && StartsWith(s, a, x + " = " + y)
    requires b == a + |x| + 3 + |y| && Follows(Strength(op), NumEq(x, y), s, b)
    ensures Chain(op, s, p) == Success(NumEq(x, y), SkipWhiteSpace(s, b))
  {
    NumEqFacts(x, y);
    ChainPrintSpells(op, NumEq(x, y), s, a);
    ChainReads(op, NumEq(x, y), s, p, a, b);
  }

  // ---------------------------------------------------------------- Path and Condition

  function Parent(): Expr { Loc("parent") }

  lemma ParentFacts()
    ensures IsChain(DrillDown, Parent()) && "" + Print(Parent()) + "" == "parent"
    ensures Show(Parent()) == "parent"
  {
    assert IsLocatorName("parent");
  }

  lemma PathSingle(s: string)
    requires s == "parent"
    ensures var r := Path(s, 0);
      && r == Success(Loc("parent"), 6)
      && Show(r.value) == "parent"
  {
    ParentFacts();
    ChainReadsPadded(DrillDown, "", Parent(), "");
  }

  function ParentChild(): Expr { Apply(DrillDown, Loc("parent"), Loc("child")) }

  lemma ParentChildShape()
    ensures IsChain(DrillDown, ParentChild())
  {
    assert IsLocatorName("parent") && IsLocatorName("child");
  }

  lemma ParentChildText()
    ensures "" + Print(ParentChild()) + "" == "parent.child"
  {
  }

  lemma ParentChildShow()
    ensures Show(ParentChild()) == "DrillDown(parent, child)"
  {
  }

  lemma PathDrillDown(s: string)
    requires s == "parent.child"
    ensures var r := Path(s, 0);
      && r == Success(Apply(DrillDown, Loc("parent"), Loc("child")), 12)
      && Show(r.value) == "DrillDown(parent, child)"
  {
    ParentChildShape();
    ParentChildText();
    ParentChildShow();
    ChainReadsPadded(DrillDown, "", ParentChild(), "");
  }

  lemma OneEqTwoFacts()
    ensures " " + Print(NumEq("1", "2")) + " " == " 1 = 2 "
    ensures Show(NumEq("1", "2")) == "Eq(1, 2)"
  {
  }

  lemma ConditionPadded(s: string)
    requires s == " 1 = 2 "
    ensures var r := Condition(s, 0);
      && r == Success(NumEq("1", "2"), 7)
      && Show(r.value) == "Eq(1, 2)"
  {
    NumEqFacts("1", "2");
    OneEqTwoFacts();
    ChainReadsPadded(Eq, " ", NumEq("1", "2"), " ");
  }

  /** Whitespace on both sides of `.` is skipped as around any other token. */
  lemma PathSpaced(s: string)
    requires s == " a . b "
    ensures Path(s, 0) == Success(Apply(DrillDown, Loc("a"), Loc("b")), 7)
  {
    var e := Apply(DrillDown, Loc("a"), Loc("b"));
    assert IsLocatorName("a") && IsLocatorName("b");
    assert IsChain(DrillDown, Loc("a"));
    SpanIs(WhiteSpace, s, 0, 1);
    SpanIs(WhiteSpace, s, 2, 3);
    SpanIs(WhiteSpace, s, 4, 5);
    SpanIs(WhiteSpace, s, 6, 7);
    assert SpellEnd(Loc("a"), s, 1) == Some(2);
    assert SpellEnd(e, s, 1) == Some(6);
    assert SpelledUpTo(e, s, 1, 7);
    ChainReadsExactly(DrillDown, e, s);
  }

  // ---------------------------------------------------------------- a dangling operator

  /** `1 = ` : the `=` is read as a token but no operand follows it, so the chain gives
      back the number alone and leaves the operator unread; this is no failure. */
  lemma ConditionDangling(s: string)
    requires s == "1 = "
    ensures Condition(s, 0) == Success(Num("1"), 2)
  {
    assert IsDecimalText("1");
    SpanIs(WhiteSpace, s, 0, 0);
    SpanIs(WhiteSpace, s, 1, 2);
    SpanIs(WhiteSpace, s, 2, 2);
    SpanIs(WhiteSpace, s, 3, 4);
    StopsAt(4, s, 1);
    OperandReads(Num("1"), s, 0, 0, 1);
    OperatorAt(Eq, s, 2, 2, 3, 4);
    ChainStarts(Eq, s, 0, Num("1"), 2);
    ChainRestStops(Eq, s, Num("1"), 2);
  }

  /** `1 = 2 AND` : the same one level up; the condition is the whole result. */
  lemma InnerTermDangling(s: string)
    requires s == "1 = 2 AND"
    ensures InnerTerm(s, 0) == Success(NumEq("1", "2"), 6)
  {
    SpanIs(WhiteSpace, s, 0, 0);
    SpanIs(WhiteSpace, s, 5, 6);
    SpanIs(WhiteSpace, s, 6, 6);
    SpanIs(WhiteSpace, s, 9, 9);
    assert StartsWith(s, 0, "1" + " = " + "2");
    StopsAt(3, s, 5);
    NumEqReads(Eq, s, 0, 0, "1", "2", 5);
    OperatorAt(And, s, 6, 6, 9, 9);
    ChainStarts(And, s, 0, NumEq("1", "2"), 6);
    ChainRestStops(And, s, NumEq("1", "2"), 6);
  }

  /** `1 = 2 Apple` : a word that only begins like `AND` is no operator, so the chain
      stops before it, as it does before any other trailing text. */
  lemma InnerTermBeforeWord(s: string)
    requires s == "1 = 2 Apple"
    ensures InnerTerm(s, 0) == Success(NumEq("1", "2"), 6)
  {
    SpanIs(WhiteSpace, s, 0, 0);
    SpanIs(WhiteSpace, s, 5, 6);
    assert StartsWith(s, 0, "1" + " = " + "2");
    assert !StartsWith(s, 6, OpText(And)) by {
      assert s[6 + 1] != OpText(And)[1];
    }
    NotStartsWith(s, 6, OpText(Or));
    NotStartsWith(s, 6, OpText(Eq));
    NotStartsWith(s, 6, OpText(DrillDown));
    CanEndBefore(NumEq("1", "2"), s, 5);
    NumEqReads(And, s, 0, 0, "1", "2", 5);
  }

  // ---------------------------------------------------------------- InnerTerm: " 1 = 2 AND 3 = 4"

  function AndPair(): Expr { Apply(And, NumEq("1", "2"), NumEq("3", "4")) }

  lemma AndPairPieces(s: string)
    requires s == " 1 = 2 AND 3 = 4"
    ensures s == " " + "1 = 2" + " AND " + "3 = 4"
  {
  }

  /** Where the whitespace between the tokens ends. */
  predicate AndPairSpaces(s: string) {
    && |s| == 16
    && SkipWhiteSpace(s, 0) == 1 && SkipWhiteSpace(s, 6) == 7 && SkipWhiteSpace(s, 7) == 7
    && SkipWhiteSpace(s, 10) == 11 && SkipWhiteSpace(s, 11) == 11 && SkipWhiteSpace(s, 16) == 16
  }

  /** Where the operator words and the conditions sit. */
  predicate AndPairWords(s: string) {
    && |s| == 16
    && StartsWith(s, 1, "1" + " = " + "2") && StartsWith(s, 7, "AND")
    && StartsWith(s, 11, "3" + " = " + "4")
  }

  /** Where each condition stops. */
  predicate AndPairEnds(s: string) {
    && |s| == 16
    && Follows(3, NumEq("1", "2"), s, 6) && Follows(3, NumEq("3", "4"), s, 16)
  }

  predicate AndPairLayout(s: string) {
    AndPairSpaces(s) && AndPairWords(s) && AndPairEnds(s)
  }

  lemma AndPairSpacesHold(s: string)
    requires s == " " + "1 = 2" + " AND " + "3 = 4"
    ensures AndPairSpaces(s)
  {
    SpanIs(WhiteSpace, s, 0, 1);
    SpanIs(WhiteSpace, s, 6, 7);
    SpanIs(WhiteSpace, s, 7, 7);
    SpanIs(WhiteSpace, s, 10, 11);
    SpanIs(WhiteSpace, s, 11, 11);
    SpanIs(WhiteSpace, s, 16, 16);
  }

  lemma AndPairWordsHold(s: string)
    requires s == " " + "1 = 2" + " AND " + "3 = 4"
    ensures AndPairWords(s)
  {
  }

  lemma AndPairEndsHold(s: string)
    requires s == " " + "1 = 2" + " AND " + "3 = 4"
    ensures AndPairEnds(s)
  {
    AndPairSpacesHold(s);
    CanEndBefore(NumEq("1", "2"), s, 6);
    CanEndBefore(NumEq("3", "4"), s, 16);
    StopsAt(3, s, 6);
    StopsAt(3, s, 16);
  }

  lemma AndPairLaidOut(s: string)
    requires s == " " + "1 = 2" + " AND " + "3 = 4"
    ensures AndPairLayout(s)
  {
    AndPairSpacesHold(s);
    AndPairWordsHold(s);
    AndPairEndsHold(s);
  }

  lemma AndPairReads(s: string)
    requires AndPairLayout(s)
    ensures InnerTerm(s, 0) == Success(AndPair(), 16)
  {
    NumEqReads(Eq, s, 0, 1, "1", "2", 6);
    NumEqReads(Eq, s, 11, 11, "3", "4", 16);
    OperatorAt(And, s, 7, 7, 10, 11);
    ChainOfTwo(And, s, 0, NumEq("1", "2"), 7, 11, NumEq("3", "4"), 16);
  }

  lemma AndPairShow()
    ensures Show(AndPair()) == "And(Eq(1, 2), Eq(3, 4))"
  {
  }

  lemma InnerTermAnd(s: string)
    requires s == " 1 = 2 AND 3 = 4"
    ensures var r := InnerTerm(s, 0);
      && r == Success(Apply(And, NumEq("1", "2"), NumEq("3", "4")), 16)
      && Show(r.value) == "And(Eq(1, 2), Eq(3, 4))"
  {
    AndPairPieces(s);
    AndPairLaidOut(s);
    AndPairReads(s);
    AndPairShow();
  }

  // ---------------------------------------------------------------- Term: " 1 = 2 OR 3 = 4"

  function OrPair(): Expr { Apply(Or, NumEq("1", "2"), NumEq("3", "4")) }

  lemma OrPairPieces(s: string)
    requires s == " 1 = 2 OR 3 = 4"
    ensures s == " " + "1 = 2" + " OR " + "3 = 4"
  {
  }

  /** Where the whitespace between the tokens ends. */
  predicate OrPairSpaces(s: string) {
    && |s| == 15
    && SkipWhiteSpace(s, 0) == 1 && SkipWhiteSpace(s, 6) == 7 && SkipWhiteSpace(s, 7) == 7
    && SkipWhiteSpace(s, 9) == 10 && SkipWhiteSpace(s, 10) == 10 && SkipWhiteSpace(s, 15) == 15
  }

  /** Where the operator words and the conditions sit. */
  predicate OrPairWords(s: string) {
    && |s| == 15
    && StartsWith(s, 1, "1" + " = " + "2") && StartsWith(s, 7, "OR")
    && StartsWith(s, 10, "3" + " = " + "4")
  }

  /** Where each condition stops. */
  predicate OrPairEnds(s: string) {
    && |s| == 15
    && Follows(2, NumEq("1", "2"), s, 6) && Follows(2, NumEq("3", "4"), s, 15)
  }

  predicate OrPairLayout(s: string) {
    OrPairSpaces(s) && OrPairWords(s) && OrPairEnds(s)
  }

  lemma OrPairSpacesHold(s: string)
    requires s == " " + "1 = 2" + " OR " + "3 = 4"
    ensures OrPairSpaces(s)
  {
    SpanIs(WhiteSpace, s, 0, 1);
    SpanIs(WhiteSpace, s, 6, 7);
    SpanIs(WhiteSpace, s, 7, 7);
    SpanIs(WhiteSpace, s, 9, 10);
    SpanIs(WhiteSpace, s, 10, 10);
    SpanIs(WhiteSpace, s, 15, 15);
  }

  lemma OrPairWordsHold(s: string)
    requires s == " " + "1 = 2" + " OR " + "3 = 4"
    ensures OrPairWords(s)
  {
  }

  lemma OrPairEndsHold(s: string)
    requires s == " " + "1 = 2" + " OR " + "3 = 4"
    ensures OrPairEnds(s)
  {
    OrPairSpacesHold(s);
    CanEndBefore(NumEq("1", "2"), s, 6);
    CanEndBefore(NumEq("3", "4"), s, 15);
    StopsAt(2, s, 6);
    StopsAt(2, s, 15);
  }

  lemma OrPairLaidOut(s: string)
    requires s == " " + "1 = 2" + " OR " + "3 = 4"
    ensures OrPairLayout(s)
  {
    OrPairSpacesHold(s);
    OrPairWordsHold(s);
    OrPairEndsHold(s);
  }

  lemma OrPairReads(s: string)
    requires OrPairLayout(s)
    ensures Term(s, 0) == Success(OrPair(), 15)
  {
    NumEqReads(And, s, 0, 1, "1", "2", 6);
    NumEqReads(And, s, 10, 10, "3", "4", 15);
    OperatorAt(Or, s, 7, 7, 9, 10);
    ChainOfTwo(Or, s, 0, NumEq("1", "2"), 7, 10, NumEq("3", "4"), 15);
  }

  lemma OrPairShow()
    ensures Show(OrPair()) == "Or(Eq(1, 2), Eq(3, 4))"
  {
  }

  lemma TermOr(s: string)
    requires s == " 1 = 2 OR 3 = 4"
    ensures var r := Term(s, 0);
      && r == Success(Apply(Or, NumEq("1", "2"), NumEq("3", "4")), 15)
      && Show(r.value) == "Or(Eq(1, 2), Eq(3, 4))"
  {
    OrPairPieces(s);
    OrPairLaidOut(s);
    OrPairReads(s);
    OrPairShow();
  }

  // ---------------------------------------------------------------- Term: AND binds before OR

  function AndBeforeOr(): Expr {
    Apply(Or, Apply(And, NumEq("0", "1"), NumEq("1", "2")), NumEq("3", "4"))
  }

  lemma AndBeforeOrPieces(s: string)
    requires s == "0 = 1 AND 1 = 2 OR 3 = 4"
    ensures s == "0 = 1" + " AND " + "1 = 2" + " OR " + "3 = 4"
  {
  }

  /** Where the whitespace between the tokens ends. */
  predicate AndBeforeOrSpaces(s: string) {
    && |s| == 24
    && SkipWhiteSpace(s, 0) == 0 && SkipWhiteSpace(s, 5) == 6 && SkipWhiteSpace(s, 6) == 6
    && SkipWhiteSpace(s, 9) == 10 && SkipWhiteSpace(s, 10) == 10 && SkipWhiteSpace(s, 15) == 16
    && SkipWhiteSpace(s, 16) == 16 && SkipWhiteSpace(s, 18) == 19 && SkipWhiteSpace(s, 19) == 19
    && SkipWhiteSpace(s, 24) == 24
  }

  /** Where the operator words and the conditions sit. */
  predicate AndBeforeOrWords(s: string) {
    && |s| == 24
    && StartsWith(s, 0, "0" + " = " + "1") && StartsWith(s, 6, "AND")
    && StartsWith(s, 10, "1" + " = " + "2") && StartsWith(s, 16, "OR")
    && !StartsWith(s, 16, "AND") && StartsWith(s, 19, "3" + " = " + "4")
  }

  /** Where each condition stops. */
  predicate AndBeforeOrEnds(s: string) {
    && |s| == 24
    && Follows(3, NumEq("0", "1"), s, 5) && Follows(3, NumEq("1", "2"), s, 15)
    && Follows(2, NumEq("3", "4"), s, 24)
  }

  predicate AndBeforeOrLayout(s: string) {
    AndBeforeOrSpaces(s) && AndBeforeOrWords(s) && AndBeforeOrEnds(s)
  }

  lemma AndBeforeOrSpacesHold(s: string)
    requires s == "0 = 1" + " AND " + "1 = 2" + " OR " + "3 = 4"
    ensures AndBeforeOrSpaces(s)
  {
    SpanIs(WhiteSpace, s, 0, 0);
    SpanIs(WhiteSpace, s, 5, 6);
    SpanIs(WhiteSpace, s, 6, 6);
    SpanIs(WhiteSpace, s, 9, 10);
    SpanIs(WhiteSpace, s, 10, 10);
    SpanIs(WhiteSpace, s, 15, 16);
    SpanIs(WhiteSpace, s, 16, 16);
    SpanIs(WhiteSpace, s, 18, 19);
    SpanIs(WhiteSpace, s, 19, 19);
    SpanIs(WhiteSpace, s, 24, 24);
  }

  lemma AndBeforeOrWordsHold(s: string)
    requires s == "0 = 1" + " AND " + "1 = 2" + " OR " + "3 = 4"
    ensures AndBeforeOrWords(s)
  {
    NotStartsWith(s, 16, "AND");
  }

  lemma AndBeforeOrEndsHold(s: string)
    requires s == "0 = 1" + " AND " + "1 = 2" + " OR " + "3 = 4"
    ensures AndBeforeOrEnds(s)
  {
    AndBeforeOrSpacesHold(s);
    CanEndBefore(NumEq("0", "1"), s, 5);
    CanEndBefore(NumEq("1", "2"), s, 15);
    CanEndBefore(NumEq("3", "4"), s, 24);
    StopsAt(3, s, 5);
    StopsAt(3, s, 15);
    StopsAt(2, s, 24);
  }

  lemma AndBeforeOrLaidOut(s: string)
    requires s == "0 = 1" + " AND " + "1 = 2" + " OR " + "3 = 4"
    ensures AndBeforeOrLayout(s)
  {
    AndBeforeOrSpacesHold(s);
    AndBeforeOrWordsHold(s);
    AndBeforeOrEndsHold(s);
  }

  /** `0 = 1 AND 1 = 2` is read as one inner term: OR stops it. */
  lemma AndBeforeOrLeft(s: string)
    requires AndBeforeOrLayout(s)
    ensures Chain(And, s, 0) == Success(AndBeforeOr().left, 16)
  {
    NumEqReads(Eq, s, 0, 0, "0", "1", 5);
    NumEqReads(Eq, s, 10, 10, "1", "2", 15);
    OperatorAt(And, s, 6, 6, 9, 10);
    ChainOfTwo(And, s, 0, NumEq("0", "1"), 6, 10, NumEq("1", "2"), 16);
  }

  lemma AndBeforeOrReads(s: string)
    requires AndBeforeOrLayout(s)
    ensures Term(s, 0) == Success(AndBeforeOr(), 24)
  {
    AndBeforeOrLeft(s);
    NumEqReads(And, s, 19, 19, "3", "4", 24);
    OperatorAt(Or, s, 16, 16, 18, 19);
    ChainOfTwo(Or, s, 0, AndBeforeOr().left, 16, 19, NumEq("3", "4"), 24);
  }

  lemma AndBeforeOrShow()
    ensures Show(AndBeforeOr()) ==
      ApplyText("Or",
        ApplyText("And", ApplyText("Eq", "0", "1"), ApplyText("Eq", "1", "2")),
        ApplyText("Eq", "3", "4"))
  {
  }

  /** The nested display, written out as the literal the grammar's example expects. */
  lemma AndBeforeOrText()
    ensures ApplyText("Or",
      ApplyText("And", ApplyText("Eq", "0", "1"), ApplyText("Eq", "1", "2")),
      ApplyText("Eq", "3", "4")) ==
      "Or(And(Eq(0, 1), Eq(1, 2)), Eq(3, 4))"
  {
    AndBeforeOrInner();
    AndBeforeOrMiddle();
    AndBeforeOrOuter();
  }

  lemma AndBeforeOrInner()
    ensures ApplyText("Eq", "0", "1") == "Eq(0, 1)"
    ensures ApplyText("Eq", "1", "2") == "Eq(1, 2)"
    ensures ApplyText("Eq", "3", "4") == "Eq(3, 4)"
  {
  }

  lemma AndBeforeOrMiddle()
    ensures ApplyText("And", "Eq(0, 1)", "Eq(1, 2)") == "And(Eq(0, 1), Eq(1, 2))"
  {
    assert "And(" + "Eq(0, 1)" == "And(Eq(0, 1)";
    assert "And(Eq(0, 1)" + ", " + "Eq(1, 2)" + ")" == "And(Eq(0, 1), Eq(1, 2))";
  }

  lemma AndBeforeOrOuter()
    ensures ApplyText("Or", "And(Eq(0, 1), Eq(1, 2))", "Eq(3, 4)") == "Or(And(Eq(0, 1), Eq(1, 2)), Eq(3, 4))"
  {
    assert "Or(" + "And(Eq(0, 1), Eq(1, 2))" == "Or(And(Eq(0, 1), Eq(1, 2))";
    assert "Or(And(Eq(0, 1), Eq(1, 2))" + ", " + "Eq(3, 4)" + ")" == "Or(And(Eq(0, 1), Eq(1, 2)), Eq(3, 4))";
  }

  lemma TermAndBeforeOr(s: string)
    requires s == "0 = 1 AND 1 = 2 OR 3 = 4"
    ensures var r := Term(s, 0);
      && r == Success(
          Apply(Or, Apply(And, NumEq("0", "1"), NumEq("1", "2")), NumEq("3", "4")),
          24)
      && Show(r.value) ==
        ApplyText("Or",
          ApplyText("And", ApplyText("Eq", "0", "1"), ApplyText("Eq", "1", "2")),
          ApplyText("Eq", "3", "4"))
      && Show(r.value) == "Or(And(Eq(0, 1), Eq(1, 2)), Eq(3, 4))"
  {
    AndBeforeOrPieces(s);
    AndBeforeOrLaidOut(s);
    AndBeforeOrReads(s);
    AndBeforeOrShow();
    AndBeforeOrText();
  }

  // ---------------------------------------------------------------- Term: AND binds before OR, on the right

  function AndAfterOr(): Expr {
    Apply(Or, NumEq("3", "4"), Apply(And, NumEq("0", "1"), NumEq("1", "2")))
  }

  lemma AndAfterOrPieces(s: string)
    requires s == "3 = 4 OR 0 = 1 AND 1 = 2"
    ensures s == "3 = 4" + " OR " + "0 = 1" + " AND " + "1 = 2"
  {
  }

  /** Where the whitespace between the tokens ends. */
  predicate AndAfterOrSpaces(s: string) {
    && |s| == 24
    && SkipWhiteSpace(s, 0) == 0 && SkipWhiteSpace(s, 5) == 6 && SkipWhiteSpace(s, 6) == 6
    && SkipWhiteSpace(s, 8) == 9 && SkipWhiteSpace(s, 9) == 9 && SkipWhiteSpace(s, 14) == 15
    && SkipWhiteSpace(s, 15) == 15 && SkipWhiteSpace(s, 18) == 19 && SkipWhiteSpace(s, 19) == 19
    && SkipWhiteSpace(s, 24) == 24
  }

  /** Where the operator words and the conditions sit. */
  predicate AndAfterOrWords(s: string) {
    && |s| == 24
    && StartsWith(s, 0, "3" + " = " + "4") && StartsWith(s, 6, "OR")
    && StartsWith(s, 9, "0" + " = " + "1") && StartsWith(s, 15, "AND")
    && StartsWith(s, 19, "1" + " = " + "2")
  }

  /** Where each condition stops. */
  predicate AndAfterOrEnds(s: string) {
    && |s| == 24
    && Follows(2, NumEq("3", "4"), s, 5) && Follows(3, NumEq("0", "1"), s, 14)
    && Follows(3, NumEq("1", "2"), s, 24)
  }

  predicate AndAfterOrLayout(s: string) {
    AndAfterOrSpaces(s) && AndAfterOrWords(s) && AndAfterOrEnds(s)
  }

  lemma AndAfterOrSpacesHold(s: string)
    requires s == "3 = 4" + " OR " + "0 = 1" + " AND " + "1 = 2"
    ensures AndAfterOrSpaces(s)
  {
    SpanIs(WhiteSpace, s, 0, 0);
    SpanIs(WhiteSpace, s, 5, 6);
    SpanIs(WhiteSpace, s, 6, 6);
    SpanIs(WhiteSpace, s, 8, 9);
    SpanIs(WhiteSpace, s, 9, 9);
    SpanIs(WhiteSpace, s, 14, 15);
    SpanIs(WhiteSpace, s, 15, 15);
    SpanIs(WhiteSpace, s, 18, 19);
    SpanIs(WhiteSpace, s, 19, 19);
    SpanIs(WhiteSpace, s, 24, 24);
  }

  lemma AndAfterOrWordsHold(s: string)
    requires s == "3 = 4" + " OR " + "0 = 1" + " AND " + "1 = 2"
    ensures AndAfterOrWords(s)
  {
  }

  lemma AndAfterOrEndsHold(s: string)
    requires s == "3 = 4" + " OR " + "0 = 1" + " AND " + "1 = 2"
    ensures AndAfterOrEnds(s)
  {
    AndAfterOrSpacesHold(s);
    CanEndBefore(NumEq("3", "4"), s, 5);
    CanEndBefore(NumEq("0", "1"), s, 14);
    CanEndBefore(NumEq("1", "2"), s, 24);
    StopsAt(2, s, 5);
    StopsAt(3, s, 14);
    StopsAt(3, s, 24);
  }

  lemma AndAfterOrLaidOut(s: string)
    requires s == "3 = 4" + " OR " + "0 = 1" + " AND " + "1 = 2"
    ensures AndAfterOrLayout(s)
  {
    AndAfterOrSpacesHold(s);
    AndAfterOrWordsHold(s);
    AndAfterOrEndsHold(s);
  }

  /** `0 = 1 AND 1 = 2` is read as one inner term, the right operand of OR. */
  lemma AndAfterOrRight(s: string)
    requires AndAfterOrLayout(s)
    ensures Chain(And, s, 9) == Success(AndAfterOr().right, 24)
  {
    NumEqReads(Eq, s, 9, 9, "0", "1", 14);
    NumEqReads(Eq, s, 19, 19, "1", "2", 24);
    OperatorAt(And, s, 15, 15, 18, 19);
    ChainOfTwo(And, s, 9, NumEq("0", "1"), 15, 19, NumEq("1", "2"), 24);
  }

  lemma AndAfterOrReads(s: string)
    requires AndAfterOrLayout(s)
    ensures Term(s, 0) == Success(AndAfterOr(), 24)
  {
    AndAfterOrRight(s);
    NumEqReads(And, s, 0, 0, "3", "4", 5);
    OperatorAt(Or, s, 6, 6, 8, 9);
    ChainOfTwo(Or, s, 0, NumEq("3", "4"), 6, 9, AndAfterOr().right, 24);
  }

  lemma AndAfterOrShow()
    ensures Show(AndAfterOr()) ==
      ApplyText("Or",
        ApplyText("Eq", "3", "4"),
        ApplyText("And", ApplyText("Eq", "0", "1"), ApplyText("Eq", "1", "2")))
  {
  }

  /** The nested display, written out as the literal the grammar's example expects. */
  lemma AndAfterOrText()
    ensures ApplyText("Or",
      ApplyText("Eq", "3", "4"),
      ApplyText("And", ApplyText("Eq", "0", "1"), ApplyText("Eq", "1", "2"))) ==
      "Or(Eq(3, 4), And(Eq(0, 1), Eq(1, 2)))"
  {
    AndAfterOrInner();
    AndAfterOrMiddle();
    AndAfterOrOuter();
  }

  lemma AndAfterOrInner()
    ensures ApplyText("Eq", "0", "1") == "Eq(0, 1)"
    ensures ApplyText("Eq", "1", "2") == "Eq(1, 2)"
    ensures ApplyText("Eq", "3", "4") == "Eq(3, 4)"
  {
  }

  lemma AndAfterOrMiddle()
    ensures ApplyText("And", "Eq(0, 1)", "Eq(1, 2)") == "And(Eq(0, 1), Eq(1, 2))"
  {
    assert "And(" + "Eq(0, 1)" == "And(Eq(0, 1)";
    assert "And(Eq(0, 1)" + ", " + "Eq(1, 2)" + ")" == "And(Eq(0, 1), Eq(1, 2))";
  }

  lemma AndAfterOrOuter()
    ensures ApplyText("Or", "Eq(3, 4)", "And(Eq(0, 1), Eq(1, 2))") == "Or(Eq(3, 4), And(Eq(0, 1), Eq(1, 2)))"
  {
    assert "Or(" + "Eq(3, 4)" == "Or(Eq(3, 4)";
    assert "Or(Eq(3, 4)" + ", " + "And(Eq(0, 1), Eq(1, 2))" + ")" == "Or(Eq(3, 4), And(Eq(0, 1), Eq(1, 2)))";
  }

  lemma TermAndAfterOr(s: string)
    requires s == "3 = 4 OR 0 = 1 AND 1 = 2"
    ensures var r := Term(s, 0);
      && r == Success(
          Apply(Or, NumEq("3", "4"), Apply(And, NumEq("0", "1"), NumEq("1", "2"))),
          24)
      && Show(r.value) ==
        ApplyText("Or",
          ApplyText("Eq", "3", "4"),
          ApplyText("And", ApplyText("Eq", "0", "1"), ApplyText("Eq", "1", "2")))
      && Show(r.value) == "Or(Eq(3, 4), And(Eq(0, 1), Eq(1, 2)))"
  {
    AndAfterOrPieces(s);
    AndAfterOrLaidOut(s);
    AndAfterOrReads(s);
    AndAfterOrShow();
    AndAfterOrText();
  }

  // ---------------------------------------------------------------- Term: paths, strings and numbers mixed

  function ABC(): Expr { Apply(DrillDown, Apply(DrillDown, Loc("a"), Loc("b")), Loc("c")) }
  function CDE(): Expr { Apply(DrillDown, Apply(DrillDown, Loc("c"), Loc("d")), Loc("e")) }
  function PathIsText(): Expr { Apply(Eq, ABC(), Str("xxx")) }
  function TextIsPath(): Expr { Apply(Eq, Str("0"), CDE()) }
  function PathIsNumber(): Expr { Apply(Eq, ABC(), Num("2.123")) }
  function Mixed(): Expr { Apply(Or, PathIsText(), Apply(And, TextIsPath(), PathIsNumber())) }

  lemma PathsFacts()
    ensures IsChain(DrillDown, ABC()) && Print(ABC()) == "a.b.c"
    ensures IsChain(DrillDown, CDE()) && Print(CDE()) == "c.d.e"
  {
    assert IsLocatorName("a") && IsLocatorName("b") && IsLocatorName("c");
    assert IsLocatorName("d") && IsLocatorName("e");
  }

  lemma MixedPieces(s: string)
    requires s == "a.b.c = 'xxx' OR '0' = c.d.e AND a.b.c = 2.123"
    ensures s == "a.b.c = 'xxx'" + " OR " + "'0' = c.d.e" + " AND " + "a.b.c = 2.123"
  {
  }

  /** Where the whitespace between the tokens ends. */
  predicate MixedSpaces(s: string) {
    && |s| == 46
    && SkipWhiteSpace(s, 0) == 0 && SkipWhiteSpace(s, 13) == 14 && SkipWhiteSpace(s, 14) == 14
    && SkipWhiteSpace(s, 16) == 17 && SkipWhiteSpace(s, 17) == 17 && SkipWhiteSpace(s, 28) == 29
    && SkipWhiteSpace(s, 29) == 29 && SkipWhiteSpace(s, 32) == 33 && SkipWhiteSpace(s, 33) == 33
    && SkipWhiteSpace(s, 46) == 46
  }

  /** Where the operator words and the conditions sit. */
  predicate MixedWords(s: string) {
    && |s| == 46
    && StartsWith(s, 0, "a.b.c = 'xxx'") && StartsWith(s, 14, "OR")
    && StartsWith(s, 17, "'0' = c.d.e") && StartsWith(s, 29, "AND")
    && StartsWith(s, 33, "a.b.c = 2.123")
  }

  /** Where each condition stops. */
  predicate MixedEnds(s: string) {
    && |s| == 46
    && Follows(2, PathIsText(), s, 13) && Follows(3, TextIsPath(), s, 28)
    && Follows(3, PathIsNumber(), s, 46)
  }

  predicate MixedLayout(s: string) {
    MixedSpaces(s) && MixedWords(s) && MixedEnds(s)
  }

  lemma MixedSpacesHold(s: string)
    requires s == "a.b.c = 'xxx'" + " OR " + "'0' = c.d.e" + " AND " + "a.b.c = 2.123"
    ensures MixedSpaces(s)
  {
    SpanIs(WhiteSpace, s, 0, 0);
    SpanIs(WhiteSpace, s, 13, 14);
    SpanIs(WhiteSpace, s, 14, 14);
    SpanIs(WhiteSpace, s, 16, 17);
    SpanIs(WhiteSpace, s, 17, 17);
    SpanIs(WhiteSpace, s, 28, 29);
    SpanIs(WhiteSpace, s, 29, 29);
    SpanIs(WhiteSpace, s, 32, 33);
    SpanIs(WhiteSpace, s, 33, 33);
    SpanIs(WhiteSpace, s, 46, 46);
  }

  lemma MixedWordsHold(s: string)
    requires s == "a.b.c = 'xxx'" + " OR " + "'0' = c.d.e" + " AND " + "a.b.c = 2.123"
    ensures MixedWords(s)
  {
  }

  lemma MixedEndsHold(s: string)
    requires s == "a.b.c = 'xxx'" + " OR " + "'0' = c.d.e" + " AND " + "a.b.c = 2.123"
    ensures MixedEnds(s)
  {
    MixedSpacesHold(s);
    CanEndBefore(PathIsText(), s, 13);
    CanEndBefore(TextIsPath(), s, 28);
    CanEndBefore(PathIsNumber(), s, 46);
    StopsAt(2, s, 13);
    StopsAt(3, s, 28);
    StopsAt(3, s, 46);
  }

  lemma MixedLaidOut(s: string)
    requires s == "a.b.c = 'xxx'" + " OR " + "'0' = c.d.e" + " AND " + "a.b.c = 2.123"
    ensures MixedLayout(s)
  {
    MixedSpacesHold(s);
    MixedWordsHold(s);
    MixedEndsHold(s);
  }

  /** `a.b.c = 'xxx'`, read as the first inner term; OR follows it. */
  lemma MixedFirst(s: string)
    requires MixedLayout(s)
    ensures Chain(And, s, 0) == Success(PathIsText(), 14)
  {
    PathsFacts();
    assert HasNoQuote("xxx");
    assert IsChain(And, PathIsText());
    assert Print(PathIsText()) == "a.b.c = 'xxx'";
    ChainPrintSpells(And, PathIsText(), s, 0);
    ChainReads(And, PathIsText(), s, 0, 0, 13);
  }

  /** `'0' = c.d.e`, read as a condition; AND follows it. */
  lemma MixedSecond(s: string)
    requires MixedLayout(s)
    ensures Chain(Eq, s, 17) == Success(TextIsPath(), 29)
  {
    PathsFacts();
    assert HasNoQuote("0");
    assert IsChain(Eq, TextIsPath());
    assert Print(TextIsPath()) == "'0' = c.d.e";
    ChainPrintSpells(Eq, TextIsPath(), s, 17);
    ChainReads(Eq, TextIsPath(), s, 17, 17, 28);
  }

  /** `a.b.c = 2.123`, read as the last condition. */
  lemma MixedThird(s: string)
    requires MixedLayout(s)
    ensures Chain(Eq, s, 33) == Success(PathIsNumber(), 46)
  {
    PathsFacts();
    assert IsDecimalText("2.123");
    assert IsChain(Eq, PathIsNumber());
    assert Print(PathIsNumber()) == "a.b.c = 2.123";
    ChainPrintSpells(Eq, PathIsNumber(), s, 33);
    ChainReads(Eq, PathIsNumber(), s, 33, 33, 46);
  }

  lemma MixedReads(s: string)
    requires MixedLayout(s)
    ensures Term(s, 0) == Success(Mixed(), 46)
  {
    MixedFirst(s);
    MixedSecond(s);
    MixedThird(s);
    OperatorAt(And, s, 29, 29, 32, 33);
    ChainOfTwo(And, s, 17, TextIsPath(), 29, 33, PathIsNumber(), 46);
    OperatorAt(Or, s, 14, 14, 16, 17);
    ChainOfTwo(Or, s, 0, PathIsText(), 14, 17, Mixed().right, 46);
  }

  lemma MixedShow()
    ensures Show(Mixed()) ==
      ApplyText("Or",
        ApplyText("Eq", ApplyText("DrillDown", ApplyText("DrillDown", "a", "b"), "c"), "xxx"),
        ApplyText("And",
          ApplyText("Eq", "0", ApplyText("DrillDown", ApplyText("DrillDown", "c", "d"), "e")),
          ApplyText("Eq", ApplyText("DrillDown", ApplyText("DrillDown", "a", "b"), "c"), "2.123")))
  {
  }

  lemma TermMixed(s: string)
    requires s == "a.b.c = 'xxx' OR '0' = c.d.e AND a.b.c = 2.123"
    ensures var r := Term(s, 0);
      && r == Success(
          Apply(Or,
            Apply(Eq, Apply(DrillDown, Apply(DrillDown, Loc("a"), Loc("b")), Loc("c")), Str("xxx")),
            Apply(And,
              Apply(Eq, Str("0"), Apply(DrillDown, Apply(DrillDown, Loc("c"), Loc("d")), Loc("e"))),
              Apply(Eq, Apply(DrillDown, Apply(DrillDown, Loc("a"), Loc("b")), Loc("c")), Num("2.123")))),
          46)
      && Show(r.value) ==
        ApplyText("Or",
          ApplyText("Eq", ApplyText("DrillDown", ApplyText("DrillDown", "a", "b"), "c"), "xxx"),
          ApplyText("And",
            ApplyText("Eq", "0", ApplyText("DrillDown", ApplyText("DrillDown", "c", "d"), "e")),
            ApplyText("Eq", ApplyText("DrillDown", ApplyText("DrillDown", "a", "b"), "c"), "2.123")))
  {
    MixedPieces(s);
    MixedLaidOut(s);
    MixedReads(s);
    MixedShow();
  }

  // ---------------------------------------------------------------- Term: a parenthesised operand

  function Parenthesised(): Expr {
    Apply(And, Group(OrPair()), NumEq("5", "6"))
  }

  lemma ParenthesisedPieces(s: string)
    requires s == " (1 = 2 OR 3 = 4) AND 5=6"
    ensures s == " " + "(" + "1 = 2" + " OR " + "3 = 4" + ")" + " AND " + "5=6"
  {
  }

  /** Where the whitespace between the tokens ends. */
  predicate ParenthesisedSpaces(s: string) {
    && |s| == 25
    && SkipWhiteSpace(s, 0) == 1 && SkipWhiteSpace(s, 2) == 2 && SkipWhiteSpace(s, 7) == 8
    && SkipWhiteSpace(s, 8) == 8 && SkipWhiteSpace(s, 10) == 11 && SkipWhiteSpace(s, 11) == 11
    && SkipWhiteSpace(s, 16) == 16 && SkipWhiteSpace(s, 17) == 18 && SkipWhiteSpace(s, 18) == 18
    && SkipWhiteSpace(s, 21) == 22 && SkipWhiteSpace(s, 22) == 22 && SkipWhiteSpace(s, 23) == 23
    && SkipWhiteSpace(s, 24) == 24 && SkipWhiteSpace(s, 25) == 25
  }

  /** Where the operator words and the conditions sit. */
  predicate ParenthesisedWords(s: string) {
    && |s| == 25
    && s[1] == '(' && s[16] == ')'
    && StartsWith(s, 2, "1" + " = " + "2") && StartsWith(s, 8, "OR")
    && StartsWith(s, 11, "3" + " = " + "4") && !StartsWith(s, 16, "OR")
    && !StartsWith(s, 18, "=") && StartsWith(s, 18, "AND")
    && StartsWith(s, 22, "5") && StartsWith(s, 23, "=")
    && StartsWith(s, 24, "6")
  }

  /** Where each condition stops. */
  predicate ParenthesisedEnds(s: string) {
    && |s| == 25
    && Follows(2, NumEq("1", "2"), s, 7) && Follows(2, NumEq("3", "4"), s, 16)
    && Follows(4, Num("5"), s, 23) && Follows(4, Num("6"), s, 25)
  }

  predicate ParenthesisedLayout(s: string) {
    ParenthesisedSpaces(s) && ParenthesisedWords(s) && ParenthesisedEnds(s)
  }

  lemma ParenthesisedSpacesHold(s: string)
    requires s == " " + "(" + "1 = 2" + " OR " + "3 = 4" + ")" + " AND " + "5=6"
    ensures ParenthesisedSpaces(s)
  {
    SpanIs(WhiteSpace, s, 0, 1);
    SpanIs(WhiteSpace, s, 2, 2);
    SpanIs(WhiteSpace, s, 7, 8);
    SpanIs(WhiteSpace, s, 8, 8);
    SpanIs(WhiteSpace, s, 10, 11);
    SpanIs(WhiteSpace, s, 11, 11);
    SpanIs(WhiteSpace, s, 16, 16);
    SpanIs(WhiteSpace, s, 17, 18);
    SpanIs(WhiteSpace, s, 18, 18);
    SpanIs(WhiteSpace, s, 21, 22);
    SpanIs(WhiteSpace, s, 22, 22);
    SpanIs(WhiteSpace, s, 23, 23);
    SpanIs(WhiteSpace, s, 24, 24);
    SpanIs(WhiteSpace, s, 25, 25);
  }

  lemma ParenthesisedWordsHold(s: string)
    requires s == " " + "(" + "1 = 2" + " OR " + "3 = 4" + ")" + " AND " + "5=6"
    ensures ParenthesisedWords(s)
  {
    NotStartsWith(s, 16, "OR");
    NotStartsWith(s, 18, "=");
  }

  lemma ParenthesisedEndsHold(s: string)
    requires s == " " + "(" + "1 = 2" + " OR " + "3 = 4" + ")" + " AND " + "5=6"
    ensures ParenthesisedEnds(s)
  {
    ParenthesisedSpacesHold(s);
    CanEndBefore(NumEq("1", "2"), s, 7);
    CanEndBefore(NumEq("3", "4"), s, 16);
    CanEndBefore(Num("5"), s, 23);
    CanEndBefore(Num("6"), s, 25);
    StopsAt(2, s, 7);
    StopsAt(2, s, 16);
    StopsAt(4, s, 23);
    StopsAt(4, s, 25);
  }

  lemma ParenthesisedLaidOut(s: string)
    requires s == " " + "(" + "1 = 2" + " OR " + "3 = 4" + ")" + " AND " + "5=6"
    ensures ParenthesisedLayout(s)
  {
    ParenthesisedSpacesHold(s);
    ParenthesisedWordsHold(s);
    ParenthesisedEndsHold(s);
  }

  /** The parenthesised term `(1 = 2 OR 3 = 4)`, read as the first operand. */
  lemma ParenthesisedGroup(s: string)
    requires ParenthesisedLayout(s)
    ensures Operand(s, 0) == Success(Parenthesised().left, 18)
  {
    NumEqReads(And, s, 2, 2, "1", "2", 7);
    NumEqReads(And, s, 11, 11, "3", "4", 16);
    OperatorAt(Or, s, 8, 8, 10, 11);
    ChainOfTwo(Or, s, 2, NumEq("1", "2"), 8, 11, NumEq("3", "4"), 16);
  }

  /** `5=6`: the operator token needs no whitespace around it. */
  lemma ParenthesisedCondition(s: string)
    requires ParenthesisedLayout(s)
    ensures Chain(Eq, s, 22) == Success(NumEq("5", "6"), 25)
  {
    assert IsDecimalText("5") && IsDecimalText("6");
    OperandReads(Num("5"), s, 22, 22, 23);
    OperatorAt(Eq, s, 23, 23, 24, 24);
    OperandReads(Num("6"), s, 24, 24, 25);
    ChainOfTwo(Eq, s, 22, Num("5"), 23, 24, Num("6"), 25);
  }

  lemma ParenthesisedReads(s: string)
    requires ParenthesisedLayout(s)
    ensures Term(s, 0) == Success(Parenthesised(), 25)
  {
    ParenthesisedGroup(s);
    ChainOfOne(Eq, s, 0, Parenthesised().left, 18);
    ParenthesisedCondition(s);
    OperatorAt(And, s, 18, 18, 21, 22);
    ChainOfTwo(And, s, 0, Parenthesised().left, 18, 22, NumEq("5", "6"), 25);
    ChainOfOne(Or, s, 0, Parenthesised(), 25);
  }

  lemma ParenthesisedShow()
    ensures Show(Parenthesised()) ==
      ApplyText("And",
        ApplyText("Or", ApplyText("Eq", "1", "2"), ApplyText("Eq", "3", "4")),
        ApplyText("Eq", "5", "6"))
  {
  }

  /** The nested display, written out as the literal the grammar's example expects. */
  lemma ParenthesisedText()
    ensures ApplyText("And",
      ApplyText("Or", ApplyText("Eq", "1", "2"), ApplyText("Eq", "3", "4")),
      ApplyText("Eq", "5", "6")) ==
      "And(Or(Eq(1, 2), Eq(3, 4)), Eq(5, 6))"
  {
    ParenthesisedInner();
    ParenthesisedMiddle();
    ParenthesisedOuter();
  }

  lemma ParenthesisedInner()
    ensures ApplyText("Eq", "1", "2") == "Eq(1, 2)"
    ensures ApplyText("Eq", "3", "4") == "Eq(3, 4)"
    ensures ApplyText("Eq", "5", "6") == "Eq(5, 6)"
  {
  }

  lemma ParenthesisedMiddle()
    ensures ApplyText("Or", "Eq(1, 2)", "Eq(3, 4)") == "Or(Eq(1, 2), Eq(3, 4))"
  {
    assert "Or(" + "Eq(1, 2)" == "Or(Eq(1, 2)";
    assert "Or(Eq(1, 2)" + ", " + "Eq(3, 4)" + ")" == "Or(Eq(1, 2), Eq(3, 4))";
  }

  lemma ParenthesisedOuter()
    ensures ApplyText("And", "Or(Eq(1, 2), Eq(3, 4))", "Eq(5, 6)") == "And(Or(Eq(1, 2), Eq(3, 4)), Eq(5, 6))"
  {
    assert "And(" + "Or(Eq(1, 2), Eq(3, 4))" == "And(Or(Eq(1, 2), Eq(3, 4))";
    assert "And(Or(Eq(1, 2), Eq(3, 4))" + ", " + "Eq(5, 6)" + ")" == "And(Or(Eq(1, 2), Eq(3, 4)), Eq(5, 6))";
  }

  lemma TermParenthesised(s: string)
    requires s == " (1 = 2 OR 3 = 4) AND 5=6"
    ensures var r := Term(s, 0);
      && r == Success(
          Apply(And, Group(Apply(Or, NumEq("1", "2"), NumEq("3", "4"))), NumEq("5", "6")),
          25)
      && Show(r.value) ==
        ApplyText("And",
          ApplyText("Or", ApplyText("Eq", "1", "2"), ApplyText("Eq", "3", "4")),
          ApplyText("Eq", "5", "6"))
      && Show(r.value) == "And(Or(Eq(1, 2), Eq(3, 4)), Eq(5, 6))"
  {
    ParenthesisedPieces(s);
    ParenthesisedLaidOut(s);
    ParenthesisedReads(s);
    ParenthesisedShow();
    ParenthesisedText();
  }
}
