/** The values the grammar produces and how they are displayed.

    The original rules return display strings built by `Apply`; here each rule returns an
    `Expr` and `Show` produces the very same string. `Group` records that an operand was
    written in parentheses; `Show` drops it, as the original drops the parentheses. */
module Syntax {
  import opened Chars

  /** The four operator tokens, each with its text and its tag name. */
  datatype Op = DrillDown | Eq | And | Or

  datatype Expr =
    | Num(text: string)                 // NumberConst: the decimal text
    | Str(text: string)                 // StringConst: the text between the quotes
    | Loc(name: string)                 // Locator: a run of letters
    | Group(inner: Expr)                // a parenthesised operand
    | Apply(op: Op, left: Expr, right: Expr)

  /** The text matched by each operator token. */
  function OpText(op: Op): (r: string)
    ensures |r| > 0 && forall i :: 0 <= i < |r| ==> !IsWhiteSpace(r[i])
  {
    match op
    case DrillDown => "."
    case Eq => "="
    case And => "AND"
    case Or => "OR"
  }

  /** The tag name each operator token returns. */
  function OpName(op: Op): string {
    match op
    case DrillDown => "DrillDown"
    case Eq => "Eq"
    case And => "And"
    case Or => "Or"
  }

  /** Different operators have different tags, and no operator's text begins with another's,
      so an operator token is never read as a different one. */
  lemma OpsDistinct(a: Op, b: Op)
    requires a != b
    ensures OpName(a) != OpName(b)
    ensures !StartsWith(OpText(a), 0, OpText(b))
  {
    assert OpText(a)[0] != OpText(b)[0];
  }

  /** Binding strength: OR binds loosest, then AND, then `=`, then `.`. */
  function Strength(op: Op): nat {
    match op
    case Or => 1
    case And => 2
    case Eq => 3
    case DrillDown => 4
  }

  /** The grammar's `Apply` helper: how one operator node is displayed, `Tag(left, right)`. */
  function ApplyText(tag: string, left: string, right: string): string {
    tag + "(" + left + ", " + right + ")"
  }

  /** Where the parts of a displayed node lie: the tag, `(`, the left operand, `, `, the
      right operand and `)`, so both operands can be cut back out of the display. */
  lemma ApplyTextParts(tag: string, left: string, right: string)
    ensures var r := ApplyText(tag, left, right);
      && |r| == |tag| + |left| + |right| + 4
      && r[..|tag|] == tag && r[|tag|] == '(' && r[|tag| + 1..|tag| + 1 + |left|] == left
      && r[|tag| + 1 + |left|..|tag| + 3 + |left|] == ", "
      && r[|tag| + 3 + |left|..|r| - 1] == right && r[|r| - 1] == ')'
  {
  }

  /** The display string the original grammar returns. */
  function Show(e: Expr): string {
    match e
    case Num(t) => t
    case Str(t) => t
    case Loc(n) => n
    case Group(x) => Show(x)
    case Apply(op, l, r) => ApplyText(OpName(op), Show(l), Show(r))
  }

  predicate NoGroup(e: Expr) {
    match e
    case Group(_) => false
    case Apply(_, l, r) => NoGroup(l) && NoGroup(r)
    case _ => true
  }

  /** The expression with every parenthesis dropped; one without any is left as it is. */
  function Ungroup(e: Expr): (r: Expr)
    ensures NoGroup(r)
    ensures NoGroup(e) ==> r == e
  {
    match e
    case Group(x) => Ungroup(x)
    case Apply(op, l, r) => Apply(op, Ungroup(l), Ungroup(r))
    case _ => e
  }

  /** The display string does not depend on the parentheses written in the input. */
  lemma {:induction false} ShowIgnoresGroups(e: Expr)
    ensures Show(e) == Show(Ungroup(e))
  {
    match e
    case Group(x) => ShowIgnoresGroups(x);
    case Apply(op, l, r) => ShowIgnoresGroups(l); ShowIgnoresGroups(r);
    case _ =>
  }

  /** Decimal text as accepted by `Parse.DecimalInvariant`: digits and at most one `.`,
      ending in a digit (so `12`, `1.5` and `.5`, but not `1.`, `.` or `1..2`). */
  predicate IsDecimalText(t: string) {
    && |t| > 0
    && IsDigit(t[|t| - 1])
    && (forall i :: 0 <= i < |t| ==> IsDigit(t[i]) || t[i] == '.')
    && (forall i, j :: 0 <= i < j < |t| && t[i] == '.' ==> t[j] != '.')
  }

  predicate IsLocatorName(n: string) {
    |n| > 0 && forall i :: 0 <= i < |n| ==> IsLetter(n[i])
  }

  predicate HasNoQuote(t: string) {
    forall i :: 0 <= i < |t| ==> t[i] != '\''
  }

  // Well-founded weights for the mutual recursion that follows the grammar's layers:
  // a chain at level op reaches its operand rule, which reaches the next layer down.
  function Weight(op: Op): nat {
    match op
    case DrillDown => 0
    case Eq => 2
    case And => 3
    case Or => 4
  }

  /** The shape of what `ChainOperator(op, operand)` builds: a left spine of `op` nodes
      whose right children (and bottom-left leaf) are operands of that level. */
  ghost predicate IsChain(op: Op, e: Expr)
    decreases e, Weight(op), 1
  {
    if e.Apply? && e.op == op then IsChain(op, e.left) && IsChainOperand(op, e.right)
    else IsChainOperand(op, e)
  }

  /** The shape of what the operand rule of the chain at level op returns. */
  ghost predicate IsChainOperand(op: Op, e: Expr)
    decreases e, Weight(op), 0
  {
    match op
    case DrillDown => e.Loc? && IsLocatorName(e.name)
    case Eq => IsOperand(e)
    case And => IsChain(Eq, e)
    case Or => IsChain(And, e)
  }

  /** The shape of what `Operand` returns. */
  ghost predicate IsOperand(e: Expr)
    decreases e, 1, 0
  {
    match e
    case Group(x) => IsChain(Or, x)
    case Num(t) => IsDecimalText(t)
    case Str(t) => HasNoQuote(t)
    case _ => IsChain(DrillDown, e)
  }

  /** Precedence: whatever a chain at level op builds has, at its top, an operator that
      binds at least as tightly as op. */
  lemma ChainTop(op: Op, e: Expr)
    requires IsChain(op, e)
    ensures e.Apply? ==> Strength(e.op) >= Strength(op)
    decreases e, Weight(op), 1
  {
    if !(e.Apply? && e.op == op) {
      OperandTop(op, e);
    }
  }

  /** ... and an operand of that chain has a top operator that binds strictly tighter. */
  lemma OperandTop(op: Op, e: Expr)
    requires IsChainOperand(op, e)
    ensures e.Apply? ==> Strength(e.op) > Strength(op)
    decreases e, Weight(op), 0
  {
    match op
    case DrillDown =>
    case Eq => if e.Apply? { ChainTop(DrillDown, e); }
    case And => ChainTop(Eq, e);
    case Or => ChainTop(And, e);
  }

  /** An operand of a chain is a chain of one operand. */
  lemma ChainOperandIsChain(op: Op, e: Expr)
    requires IsChainOperand(op, e)
    ensures IsChain(op, e)
  {
    OperandTop(op, e);
  }

  /** `acc` is the bottom of the left spine of `op` nodes in `e`: whatever was combined
      after `acc` sits to its right. */
  predicate HasLeftSpine(op: Op, e: Expr, acc: Expr) {
    e == acc || (e.Apply? && e.op == op && HasLeftSpine(op, e.left, acc))
  }

  lemma {:induction false} HasLeftSpineStep(op: Op, e: Expr, acc: Expr, x: Expr)
    requires HasLeftSpine(op, e, Apply(op, acc, x))
    ensures HasLeftSpine(op, e, acc)
  {
    if e != Apply(op, acc, x) {
      HasLeftSpineStep(op, e.left, acc, x);
    }
  }
}
