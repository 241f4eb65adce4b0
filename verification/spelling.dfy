/** What the grammar reads, token by token.

    `SpellEnd` says when a stretch of the input spells out an expression: its tokens in
    order, with any whitespace, or none, between two tokens, so long as no token runs on
    into the next. The chains read such text exactly (`ChainReads`), and whatever a chain
    returns was read from such text (`ChainSpells`); over a whole input the two directions
    meet in `ChainReadsExactly`. */
module Spelling {
  import opened Chars
  import opened Syntax
  import opened Grammar

  datatype Option<T> = None | Some(value: T)

  // ---------------------------------------------------------------- token boundaries

  /** Nothing at `q` extends the last token of `e`: a number cannot grow by a digit (or by
      a `.` when it has none), a locator by a letter. */
  predicate CanEnd(e: Expr, s: string, q: nat) {
    match e
    case Num(t) => EndsDecimal(s, q, t)
    case Loc(_) => q == |s| || (q < |s| && !IsLetter(s[q]))
    case Apply(_, _, r) => CanEnd(r, s, q)
    case _ => true
  }

  /** No operator binding at least as tightly as strength `k` is written at the first
      non-blank character at or after `q`. */
  predicate Stops(k: nat, s: string, q: nat)
    requires q <= |s|
  {
    var j := SkipWhiteSpace(s, q);
    && (k <= Strength(Or) ==> !StartsWith(s, j, OpText(Or)))
    && (k <= Strength(And) ==> !StartsWith(s, j, OpText(And)))
    && (k <= Strength(Eq) ==> !StartsWith(s, j, OpText(Eq)))
    && (k <= Strength(DrillDown) ==> !StartsWith(s, j, OpText(DrillDown)))
  }

  /** What follows `e` at `q` ends it, and no operator binding at least as tightly as
      strength `k` follows. */
  predicate Follows(k: nat, e: Expr, s: string, q: nat)
    requires q <= |s|
  {
    CanEnd(e, s, q) && Stops(k, s, q)
  }

  // ---------------------------------------------------------------- spelling

  /** Where the text of `e` that starts at `a` ends, when `s` spells `e` there: a number,
      a string literal or a name as it is written; `(`, the inner expression and `)`; the
      left operand, the operator's text and the right operand. Any whitespace may stand
      between two tokens. `None` when `s` does not spell `e` at `a`. */
  function SpellEnd(e: Expr, s: string, a: nat): (r: Option<nat>)
    requires a <= |s|
    ensures r.Some? ==> a < r.value <= |s|
  {
    match e
    case Num(t) => if |t| > 0 && StartsWith(s, a, t) then Some(a + |t|) else None
    case Str(t) => if StartsWith(s, a, "'" + t + "'") then Some(a + |t| + 2) else None
    case Loc(n) => if |n| > 0 && StartsWith(s, a, n) then Some(a + |n|) else None
    case Group(x) =>
      if a < |s| && s[a] == '(' then
        match SpellEnd(x, s, SkipWhiteSpace(s, a + 1))
        case None => None
        case Some(q) =>
          var c := SkipWhiteSpace(s, q);
          if c < |s| && s[c] == ')' then Some(c + 1) else None
      else None
    case Apply(op, l, r) =>
      match SpellEnd(l, s, a)
      case None => None
      case Some(ql) =>
        var qo := SkipWhiteSpace(s, ql);
        if CanEnd(l, s, ql) && StartsWith(s, qo, OpText(op)) then
          SpellEnd(r, s, SkipWhiteSpace(s, qo + |OpText(op)|))
        else None
  }

  /** `s` spells `e` from `a`, the last token ends there, and the whitespace after it
      reaches `q`. */
  predicate SpelledUpTo(e: Expr, s: string, a: nat, q: nat)
    requires a <= |s|
  {
    var r := SpellEnd(e, s, a);
    r.Some? && CanEnd(e, s, r.value) && SkipWhiteSpace(s, r.value) == q
  }

  // ---------------------------------------------------------------- small facts

  lemma {:induction false} CanEndBefore(e: Expr, s: string, q: nat)
    requires q == |s| || (q < |s| && !IsLetter(s[q]) && !IsDigit(s[q]) && s[q] != '.')
    ensures CanEnd(e, s, q)
  {
    if e.Apply? { CanEndBefore(e.right, s, q); }
  }

  /** The text at `q` is blank or over, so whatever ends at `q` can end there. */
  lemma CanEndBeforeBlank(e: Expr, s: string, q: nat)
    requires q <= |s| && (q == |s| || SkipWhiteSpace(s, q) > q)
    ensures CanEnd(e, s, q)
  {
    SpanAll(WhiteSpace, s, q);
    CanEndBefore(e, s, q);
  }

  lemma NotStartsWith(s: string, pos: nat, t: string)
    requires |t| > 0 && pos < |s| && s[pos] != t[0]
    ensures !StartsWith(s, pos, t)
  {
    if pos + |t| <= |s| {
      assert s[pos..pos + |t|][0] == s[pos];
    }
  }

  /** No operator is written where the first non-blank character is none of their first
      characters (at that strength or tighter), or where the text is over. */
  lemma StopsAt(k: nat, s: string, q: nat)
    requires q <= |s|
    requires var j := SkipWhiteSpace(s, q);
      j == |s| ||
        ((k <= Strength(Or) ==> s[j] != 'O')
         && (k <= Strength(And) ==> s[j] != 'A')
         && (k <= Strength(Eq) ==> s[j] != '=')
         && (k <= Strength(DrillDown) ==> s[j] != '.'))
    ensures Stops(k, s, q)
  {
    var j := SkipWhiteSpace(s, q);
    if j < |s| {
      if k <= Strength(Or) { NotStartsWith(s, j, OpText(Or)); }
      if k <= Strength(And) { NotStartsWith(s, j, OpText(And)); }
      if k <= Strength(Eq) { NotStartsWith(s, j, OpText(Eq)); }
      if k <= Strength(DrillDown) { NotStartsWith(s, j, OpText(DrillDown)); }
    }
  }

  lemma FollowsRight(k: nat, e: Expr, s: string, q: nat)
    requires q <= |s| && e.Apply? && Follows(k, e, s, q)
    ensures Follows(k, e.right, s, q)
  {
  }

  /** Where the text stops, an operator binding at least as tightly is not there. */
  lemma FollowsNoOperator(k: nat, s: string, q: nat, op: Op)
    requires q <= |s| && Stops(k, s, q) && Strength(op) >= k
    ensures Operator(op, s, q).Failure?
  {
  }

  /** Spelled text starts with its first token: a chain's with a character that is not
      whitespace, a path's with a letter. */
  lemma {:induction false} ChainSpellStart(op: Op, e: Expr, s: string, a: nat)
    requires IsChain(op, e) && a <= |s| && SpellEnd(e, s, a).Some?
    ensures a < |s| && !IsWhiteSpace(s[a])
    ensures op == DrillDown ==> IsLetter(s[a])
    decreases e, Weight(op), 1
  {
    if e.Apply? && e.op == op {
      ChainSpellStart(op, e.left, s, a);
    } else {
      match op
      case DrillDown => assert s[a + 0] == e.name[0];
      case Eq => OperandSpellStart(e, s, a);
      case And => ChainSpellStart(Eq, e, s, a);
      case Or => ChainSpellStart(And, e, s, a);
    }
  }

  /** An operand's spelled text starts with the character that selects its alternative. */
  lemma {:induction false} OperandSpellStart(e: Expr, s: string, a: nat)
    requires IsOperand(e) && a <= |s| && SpellEnd(e, s, a).Some?
    ensures a < |s| && StartsLike(e, s[a]) && !IsWhiteSpace(s[a])
    decreases e, 1, 1
  {
    match e
    case Group(x) =>
    case Num(t) => assert s[a + 0] == t[0];
    case Str(t) => assert s[a + 0] == ("'" + t + "'")[0];
    case _ => ChainSpellStart(DrillDown, e, s, a);
  }

  // ---------------------------------------------------------------- single steps of the rules

  lemma OperatorAfterWhiteSpace(op: Op, s: string, q: nat)
    requires q <= |s|
    ensures Operator(op, s, SkipWhiteSpace(s, q)) == Operator(op, s, q)
  {
    SkipWhiteSpaceIdempotent(s, q);
  }

  /** The operator token at `qo`, reached from `ql`, ends where the right operand starts. */
  lemma OperatorAt(op: Op, s: string, ql: nat, qo: nat, qe: nat, qr: nat)
    requires ql <= qo && StartsWith(s, qo, OpText(op)) && SkipWhiteSpace(s, ql) == qo
    requires qe == qo + |OpText(op)| && qe <= qr <= |s| && SkipWhiteSpace(s, qe) == qr
    ensures Operator(op, s, SkipWhiteSpace(s, ql)) == Success(op, qr)
  {
    SkipWhiteSpaceIdempotent(s, ql);
  }

  /** After a left part whose last token ends at `ql`, the operator written next is read
      as a token, and no tighter operator is written there. */
  lemma OperatorAfterLeft(op: Op, l: Expr, s: string, ql: nat, qo: nat)
    requires ql <= |s| && qo == SkipWhiteSpace(s, ql)
    requires CanEnd(l, s, ql) && StartsWith(s, qo, OpText(op))
    ensures Follows(Strength(op) + 1, l, s, ql)
    ensures Operator(op, s, qo) == Success(op, SkipWhiteSpace(s, qo + |OpText(op)|))
  {
    assert s[qo + 0] == OpText(op)[0];
    SkipWhiteSpaceIdempotent(s, ql);
    StopsAt(Strength(op) + 1, s, ql);
  }

  /** An operator followed by an operand is folded into the running result. */
  lemma ChainRestFolds(op: Op, s: string, e: Expr, pos: nat, p1: nat, q: nat)
    requires e.Apply? && e.op == op
    requires pos <= |s| && Operator(op, s, pos) == Success(op, p1)
    requires ChainOperand(op, s, p1) == Success(e.right, q)
    ensures ChainRest(op, s, e.left, pos) == ChainRest(op, s, e, q)
  {
    assert e == Apply(op, e.left, e.right);
  }

  /** Without an operator, or with an operator that no operand follows, the running
      result is the result and the operator is left unread. */
  lemma ChainRestStops(op: Op, s: string, acc: Expr, pos: nat)
    requires pos <= |s|
    requires Operator(op, s, pos).Failure? || ChainOperand(op, s, Operator(op, s, pos).pos).Failure?
    ensures ChainRest(op, s, acc, pos) == Success(acc, pos)
  {
  }

  lemma ChainStarts(op: Op, s: string, p: nat, x: Expr, q: nat)
    requires p <= |s| && ChainOperand(op, s, p) == Success(x, q)
    ensures Chain(op, s, p) == ChainRest(op, s, x, q)
  {
  }

  // ---------------------------------------------------------------- reading spelled text
  // In each lemma `p` is where the rule starts, `a` where the spelled text starts (past
  // the whitespace at `p`) and `b` where its last token ends.

  /** A chain spelled at `a` parses up to its end, arriving at the repetition with the
      whole chain as the running result. */
  lemma {:induction false} ChainReaches(op: Op, e: Expr, s: string, p: nat, a: nat, b: nat)
    requires IsChain(op, e)
    requires p <= |s| && SkipWhiteSpace(s, p) == a && SpellEnd(e, s, a) == Some(b)
    requires Follows(Strength(op) + 1, e, s, b)
    ensures Chain(op, s, p) == ChainRest(op, s, e, SkipWhiteSpace(s, b))
    decreases e, Weight(op), 2
  {
    if e.Apply? && e.op == op {
      var ql, qr := ApplySpelled(op, e, s, a, b);
      FollowsRight(Strength(op) + 1, e, s, b);
      ChainReaches(op, e.left, s, p, a, ql);
      SubReads(op, e.right, s, qr, qr, b);
      ChainRestFolds(op, s, e, SkipWhiteSpace(s, ql), qr, SkipWhiteSpace(s, b));
    } else {
      SubReads(op, e, s, p, a, b);
      ChainStarts(op, s, p, e, SkipWhiteSpace(s, b));
    }
  }

  /** Where the parts of a spelled operator node lie: the left part ends at `ql` and is
      followed by the operator token, which is read up to `qr`, where the right part is
      spelled up to `b`. */
  lemma ApplySpelled(op: Op, e: Expr, s: string, a: nat, b: nat) returns (ql: nat, qr: nat)
    requires e.Apply? && e.op == op && a <= |s| && SpellEnd(e, s, a) == Some(b)
    ensures ql <= |s| && SpellEnd(e.left, s, a) == Some(ql) && Follows(Strength(op) + 1, e.left, s, ql)
    ensures Operator(op, s, SkipWhiteSpace(s, ql)) == Success(op, qr)
    ensures qr <= |s| && SkipWhiteSpace(s, qr) == qr && SpellEnd(e.right, s, qr) == Some(b)
  {
    ql := SpellEnd(e.left, s, a).value;
    var qo := SkipWhiteSpace(s, ql);
    var qe := qo + |OpText(op)|;
    qr := SkipWhiteSpace(s, qe);
    assert SpellEnd(e, s, a) == SpellEnd(e.right, s, qr);
    OperatorAfterLeft(op, e.left, s, ql, qo);
    SkipWhiteSpaceIdempotent(s, qe);
  }

  /** A chain spelled at `a`, followed by nothing that continues it, parses exactly. */
  lemma {:induction false} ChainReads(op: Op, e: Expr, s: string, p: nat, a: nat, b: nat)
    requires IsChain(op, e)
    requires p <= |s| && SkipWhiteSpace(s, p) == a && SpellEnd(e, s, a) == Some(b)
    requires Follows(Strength(op), e, s, b)
    ensures Chain(op, s, p) == Success(e, SkipWhiteSpace(s, b))
    decreases e, Weight(op), 3
  {
    ChainReaches(op, e, s, p, a, b);
    FollowsNoOperator(Strength(op), s, b, op);
    OperatorAfterWhiteSpace(op, s, b);
    ChainRestStops(op, s, e, SkipWhiteSpace(s, b));
  }

  lemma {:induction false} SubReads(op: Op, e: Expr, s: string, p: nat, a: nat, b: nat)
    requires IsChainOperand(op, e)
    requires p <= |s| && SkipWhiteSpace(s, p) == a && SpellEnd(e, s, a) == Some(b)
    requires Follows(Strength(op) + 1, e, s, b)
    ensures ChainOperand(op, s, p) == Success(e, SkipWhiteSpace(s, b))
    decreases e, Weight(op), 1
  {
    match op
    case DrillDown => LettersReads(s, a, e.name, b);
    case Eq => OperandReads(e, s, p, a, b);
    case And => ChainReads(Eq, e, s, p, a, b);
    case Or => ChainReads(And, e, s, p, a, b);
  }

  /** The alternatives of Operand before the one that applies all fail. */
  lemma OperandAlternatives(e: Expr, s: string, p: nat, a: nat)
    requires p <= |s| && SkipWhiteSpace(s, p) == a && a < |s| && StartsLike(e, s[a])
    ensures !e.Group? ==> Grouped(s, p).Failure?
    ensures !e.Group? && !e.Num? ==> NumberConst(s, p).Failure?
    ensures !e.Group? && !e.Num? && !e.Str? ==> StringConst(s, p).Failure?
  {
    if !e.Num? {
      SpanIs(Digit, s, a, a);
    }
  }

  lemma {:induction false} OperandReads(e: Expr, s: string, p: nat, a: nat, b: nat)
    requires IsOperand(e)
    requires p <= |s| && SkipWhiteSpace(s, p) == a && SpellEnd(e, s, a) == Some(b)
    requires Follows(4, e, s, b)
    ensures Operand(s, p) == Success(e, SkipWhiteSpace(s, b))
    decreases e, 1, 0
  {
    OperandSpellStart(e, s, a);
    OperandAlternatives(e, s, p, a);
    match e
    case Group(x) => GroupedReads(x, s, p, a, b);
    case Num(t) => DecimalReads(s, a, t, b);
    case Str(t) => QuotedReads(s, a, t, b);
    case _ => ChainReads(DrillDown, e, s, p, a, b);
  }

  lemma {:induction false} GroupedReads(x: Expr, s: string, p: nat, a: nat, b: nat)
    requires IsChain(Or, x)
    requires p <= |s| && SkipWhiteSpace(s, p) == a && SpellEnd(Group(x), s, a) == Some(b)
    ensures Grouped(s, p) == Success(Group(x), SkipWhiteSpace(s, b))
    decreases Group(x), 0, 0
  {
    var q := GroupSpelled(x, s, a, b);
    ChainReads(Or, x, s, a + 1, SkipWhiteSpace(s, a + 1), q);
    GroupedAt(s, p, x, SkipWhiteSpace(s, q));
  }

  /** Grouped succeeds once the chain inside the parenthesis stops just before a `)`. */
  lemma GroupedAt(s: string, p: nat, x: Expr, c: nat)
    requires p <= |s| && SkipWhiteSpace(s, p) < |s| && s[SkipWhiteSpace(s, p)] == '('
    requires Chain(Or, s, SkipWhiteSpace(s, p) + 1) == Success(x, c) && c < |s| && s[c] == ')'
    ensures Grouped(s, p) == Success(Group(x), SkipWhiteSpace(s, c + 1))
  {
  }

  /** Where the parts of a spelled group lie: `(` at `a`, the inner expression spelled
      from past the whitespace after it up to `q`, then whitespace and `)` just before `b`. */
  lemma GroupSpelled(x: Expr, s: string, a: nat, b: nat) returns (q: nat)
    requires a <= |s| && SpellEnd(Group(x), s, a) == Some(b)
    ensures a < |s| && s[a] == '('
    ensures q <= |s| && SpellEnd(x, s, SkipWhiteSpace(s, a + 1)) == Some(q)
    ensures Follows(Strength(Or), x, s, q)
    ensures SkipWhiteSpace(s, q) < |s| && s[SkipWhiteSpace(s, q)] == ')' && b == SkipWhiteSpace(s, q) + 1
  {
    q := SpellEnd(x, s, SkipWhiteSpace(s, a + 1)).value;
    StopsAt(Strength(Or), s, q);
    if SkipWhiteSpace(s, q) == q {
      CanEndBefore(x, s, q);
    } else {
      CanEndBeforeBlank(x, s, q);
    }
  }

  // ---------------------------------------------------------------- what was read was spelled

  /** Whatever a chain returns is spelled by the text it read: past the leading
      whitespace, the tokens of the result in order, then the trailing whitespace. */
  lemma {:induction false} ChainSpells(op: Op, s: string, p: nat)
    requires p <= |s| && Chain(op, s, p).Success?
    ensures SpelledUpTo(Chain(op, s, p).value, s, SkipWhiteSpace(s, p), Chain(op, s, p).pos)
    decreases |s| - p, Weight(op), 1
  {
    var a := SkipWhiteSpace(s, p);
    var x := ChainOperand(op, s, p);
    ChainOperandSpells(op, s, p);
    ChainStarts(op, s, p, x.value, x.pos);
    ChainRestSpells(op, s, x.value, x.pos, a, SpellEnd(x.value, s, a).value);
  }

  /** The repetition extends spelled text by an operator and an operand at a time. */
  lemma {:induction false} ChainRestSpells(op: Op, s: string, acc: Expr, pos: nat, a: nat, b: nat)
    requires a <= |s| && pos <= |s| && SpellEnd(acc, s, a) == Some(b)
    requires CanEnd(acc, s, b) && SkipWhiteSpace(s, b) == pos
    ensures SpelledUpTo(ChainRest(op, s, acc, pos).value, s, a, ChainRest(op, s, acc, pos).pos)
    decreases |s| - pos, Weight(op), 0
  {
    var o := Operator(op, s, pos);
    if o.Failure? || ChainOperand(op, s, o.pos).Failure? {
      ChainRestStops(op, s, acc, pos);
    } else {
      var x := ChainOperand(op, s, o.pos);
      var e := Apply(op, acc, x.value);
      ChainRestFolds(op, s, e, pos, o.pos, x.pos);
      OperatorSpelled(op, s, b, pos, o.pos);
      ChainOperandSpells(op, s, o.pos);
      var b1 := SpellEnd(x.value, s, o.pos).value;
      SpellsFurther(op, acc, x.value, s, a, b, o.pos, b1);
      ChainRestSpells(op, s, e, x.pos, a, b1);
    }
  }

  /** An operator token read after the whitespace that follows `b` is spelled there, and
      reading it ends where its operand starts. */
  lemma OperatorSpelled(op: Op, s: string, b: nat, pos: nat, q: nat)
    requires b <= |s| && pos == SkipWhiteSpace(s, b) && Operator(op, s, pos) == Success(op, q)
    ensures StartsWith(s, SkipWhiteSpace(s, b), OpText(op))
    ensures q == SkipWhiteSpace(s, SkipWhiteSpace(s, b) + |OpText(op)|) && SkipWhiteSpace(s, q) == q
  {
    SkipWhiteSpaceIdempotent(s, b);
    SkipWhiteSpaceIdempotent(s, pos + |OpText(op)|);
  }

  /** Spelled text, an operator and a spelled operand spell the operator node. */
  lemma SpellsFurther(op: Op, acc: Expr, x: Expr, s: string, a: nat, b: nat, q: nat, b1: nat)
    requires a <= |s| && SpellEnd(acc, s, a) == Some(b) && CanEnd(acc, s, b)
    requires StartsWith(s, SkipWhiteSpace(s, b), OpText(op))
    requires q == SkipWhiteSpace(s, SkipWhiteSpace(s, b) + |OpText(op)|)
    requires SpellEnd(x, s, q) == Some(b1)
    ensures SpellEnd(Apply(op, acc, x), s, a) == Some(b1)
  {
  }

  lemma {:induction false} ChainOperandSpells(op: Op, s: string, p: nat)
    requires p <= |s| && ChainOperand(op, s, p).Success?
    ensures SpelledUpTo(ChainOperand(op, s, p).value, s, SkipWhiteSpace(s, p), ChainOperand(op, s, p).pos)
    decreases |s| - p, Weight(op), 0
  {
    match op
    case DrillDown =>
    case Eq => OperandSpells(s, p);
    case And => ChainSpells(Eq, s, p);
    case Or => ChainSpells(And, s, p);
  }

  lemma {:induction false} OperandSpells(s: string, p: nat)
    requires p <= |s| && Operand(s, p).Success?
    ensures SpelledUpTo(Operand(s, p).value, s, SkipWhiteSpace(s, p), Operand(s, p).pos)
    decreases |s| - p, 1, 1
  {
    if Grouped(s, p).Success? {
      GroupedSpells(s, p);
    } else if NumberConst(s, p).Success? {
    } else if StringConst(s, p).Success? {
    } else {
      ChainSpells(DrillDown, s, p);
    }
  }

  lemma {:induction false} GroupedSpells(s: string, p: nat)
    requires p <= |s| && Grouped(s, p).Success?
    ensures SpelledUpTo(Grouped(s, p).value, s, SkipWhiteSpace(s, p), Grouped(s, p).pos)
    decreases |s| - p, 1, 0
  {
    var a := SkipWhiteSpace(s, p);
    var inner := Chain(Or, s, a + 1);
    ChainSpells(Or, s, a + 1);
    assert SpellEnd(Group(inner.value), s, a) == Some(inner.pos + 1);
  }

  // ---------------------------------------------------------------- whole inputs

  /** A chain reads the whole input as `e` exactly when the input spells `e`, with any
      whitespace before, between and after its tokens. */
  lemma ChainReadsExactly(op: Op, e: Expr, s: string)
    requires IsChain(op, e)
    ensures Chain(op, s, 0) == Success(e, |s|) <==> SpelledUpTo(e, s, SkipWhiteSpace(s, 0), |s|)
  {
    var a := SkipWhiteSpace(s, 0);
    if Chain(op, s, 0) == Success(e, |s|) {
      ChainSpells(op, s, 0);
    }
    if SpelledUpTo(e, s, a, |s|) {
      var b := SpellEnd(e, s, a).value;
      StopsAt(Strength(op), s, b);
      ChainReads(op, e, s, 0, a, b);
    }
  }
}
