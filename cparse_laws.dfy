/** What the grammar of src/parser.c guarantees: the precedence and associativity of its
    operators, how calls collect their arguments, where its loops stop making progress, when an
    if statement gets an else block, and where a routine's parameter list faults. */
module CParseLaws {
  import opened Wrappers
  import opened Tokens
  import opened CAst
  import opened CParsing

  /** The binary operators of the grammar, from `:` down to `**`. `%` is not one of them. */
  const BinaryOperators: seq<TokenType> := [COLON, EQ, NE, LT, GT, LE, GE, PLUS, MINUS, MUL, DIV, EXP]

  /** No binary operator is at `q`, so every precedence level stops there. */
  predicate Ends(toks: seq<Token>, q: nat) {
    !Listed(toks, q, BinaryOperators)
  }

  /** `e` is a unary expression read from `p` to `q`. */
  predicate Operand(toks: seq<Token>, p: nat, e: CNode, q: nat) {
    p <= q <= |toks| && UnaryAt(toks, p) == Done(e, q)
  }

  // Each level returns what the level below returned when the next token is not one of its
  // operators.

  lemma LiftToExponent(toks: seq<Token>, p: nat, e: CNode, q: nat)
    requires p <= q <= |toks| && UnaryAt(toks, p) == Done(e, q) && !Listed(toks, q, [EXP])
    ensures ExponentAt(toks, p) == Done(e, q)
  {
  }

  lemma LiftToMultiplicative(toks: seq<Token>, p: nat, e: CNode, q: nat)
    requires p <= q <= |toks| && ExponentAt(toks, p) == Done(e, q) && !Listed(toks, q, [MUL, DIV])
    ensures MultiplicativeAt(toks, p) == Done(e, q)
  {
  }

  lemma LiftToAdditive(toks: seq<Token>, p: nat, e: CNode, q: nat)
    requires p <= q <= |toks| && MultiplicativeAt(toks, p) == Done(e, q) && !Listed(toks, q, [PLUS, MINUS])
    ensures AdditiveAt(toks, p) == Done(e, q)
  {
  }

  lemma LiftToRelational(toks: seq<Token>, p: nat, e: CNode, q: nat)
    requires p <= q <= |toks| && AdditiveAt(toks, p) == Done(e, q) && !Listed(toks, q, [LT, GT, LE, GE])
    ensures RelationalAt(toks, p) == Done(e, q)
  {
  }

  lemma LiftToEquality(toks: seq<Token>, p: nat, e: CNode, q: nat)
    requires p <= q <= |toks| && RelationalAt(toks, p) == Done(e, q) && !Listed(toks, q, [EQ, NE])
    ensures EqualityAt(toks, p) == Done(e, q)
  {
  }

  lemma LiftToExpression(toks: seq<Token>, p: nat, e: CNode, q: nat)
    requires p <= q <= |toks| && EqualityAt(toks, p) == Done(e, q) && !Listed(toks, q, [COLON])
    ensures AssignmentAt(toks, p) == Done(e, q) && ExprAt(toks, p) == Done(e, q)
  {
  }

  // A unary expression is an expression of every level up to the first level whose operator
  // follows it.

  lemma UnaryIsMultiplicative(toks: seq<Token>, p: nat, e: CNode, q: nat)
    requires Operand(toks, p, e, q) && !Listed(toks, q, [EXP, MUL, DIV])
    ensures MultiplicativeAt(toks, p) == Done(e, q)
  {
    LiftToExponent(toks, p, e, q);
    LiftToMultiplicative(toks, p, e, q);
  }

  lemma UnaryIsAdditive(toks: seq<Token>, p: nat, e: CNode, q: nat)
    requires Operand(toks, p, e, q)
    requires !Listed(toks, q, [EXP, MUL, DIV, PLUS, MINUS])
    ensures AdditiveAt(toks, p) == Done(e, q)
  {
    UnaryIsMultiplicative(toks, p, e, q);
    LiftToAdditive(toks, p, e, q);
  }

  lemma UnaryIsRelational(toks: seq<Token>, p: nat, e: CNode, q: nat)
    requires Operand(toks, p, e, q)
    requires !Listed(toks, q, [EXP, MUL, DIV, PLUS, MINUS, LT, GT, LE, GE])
    ensures RelationalAt(toks, p) == Done(e, q)
  {
    UnaryIsAdditive(toks, p, e, q);
    LiftToRelational(toks, p, e, q);
  }

  /** A unary expression followed by no binary operator is a whole expression. */
  lemma UnaryIsExpression(toks: seq<Token>, p: nat, e: CNode, q: nat)
    requires Operand(toks, p, e, q) && Ends(toks, q)
    ensures RelationalAt(toks, p) == Done(e, q)
    ensures ExprAt(toks, p) == Done(e, q)
  {
    UnaryIsRelational(toks, p, e, q);
    LiftToEquality(toks, p, e, q);
    LiftToExpression(toks, p, e, q);
  }

  // One round of a left-associative loop: the operator at `p` and the operand after it make a
  // binary node with what was built so far.

  lemma EqualityStep(toks: seq<Token>, p: nat, lhs: CNode, rhs: CNode, q: nat)
    requires p < q <= |toks| && Listed(toks, p, [EQ, NE]) && RelationalAt(toks, p + 1) == Done(rhs, q)
    ensures EqualityTail(toks, p, lhs) == EqualityTail(toks, q, Binary(toks[p], lhs, rhs))
  {
  }

  lemma EqualityStart(toks: seq<Token>, p: nat, e: CNode, q: nat)
    requires p <= q <= |toks| && RelationalAt(toks, p) == Done(e, q)
    ensures EqualityAt(toks, p) == EqualityTail(toks, q, e)
  {
  }

  lemma EqualityStop(toks: seq<Token>, q: nat, e: CNode)
    requires q <= |toks| && Ends(toks, q)
    ensures EqualityTail(toks, q, e) == Done(e, q)
  {
  }

  lemma RelationalStep(toks: seq<Token>, p: nat, lhs: CNode, rhs: CNode, q: nat)
    requires p < q <= |toks| && Listed(toks, p, [LT, GT, LE, GE]) && AdditiveAt(toks, p + 1) == Done(rhs, q)
    ensures RelationalTail(toks, p, lhs) == RelationalTail(toks, q, Binary(toks[p], lhs, rhs))
  {
  }

  lemma AdditiveStep(toks: seq<Token>, p: nat, lhs: CNode, rhs: CNode, q: nat)
    requires p < q <= |toks| && Listed(toks, p, [PLUS, MINUS]) && MultiplicativeAt(toks, p + 1) == Done(rhs, q)
    ensures AdditiveTail(toks, p, lhs) == AdditiveTail(toks, q, Binary(toks[p], lhs, rhs))
  {
  }

  lemma MultiplicativeStep(toks: seq<Token>, p: nat, lhs: CNode, rhs: CNode, q: nat)
    requires p < q <= |toks| && Listed(toks, p, [MUL, DIV]) && ExponentAt(toks, p + 1) == Done(rhs, q)
    ensures MultiplicativeTail(toks, p, lhs) == MultiplicativeTail(toks, q, Binary(toks[p], lhs, rhs))
  {
  }

  /** Only `*` and `/` are multiplicative: a `%` after an operand ends the expression there. */
  lemma ModuloEndsExpression(toks: seq<Token>, p0: nat, a: CNode, p1: nat)
    requires Operand(toks, p0, a, p1) && Listed(toks, p1, [MOD])
    ensures ExprAt(toks, p0) == Done(a, p1)
  {
    UnaryIsExpression(toks, p0, a, p1);
  }

  /** `=` and `<>` group to the left: `a = b <> c` is `(a = b) <> c`. */
  lemma EqualityIsLeftAssociative(toks: seq<Token>, p0: nat, a: CNode, p1: nat, b: CNode, p2: nat, c: CNode, p3: nat)
    requires Operand(toks, p0, a, p1) && Listed(toks, p1, [EQ, NE])
    requires Operand(toks, p1 + 1, b, p2) && Listed(toks, p2, [EQ, NE])
    requires Operand(toks, p2 + 1, c, p3) && Ends(toks, p3)
    ensures ExprAt(toks, p0) == Done(Binary(toks[p2], Binary(toks[p1], a, b), c), p3)
  {
    UnaryIsRelational(toks, p0, a, p1);
    UnaryIsRelational(toks, p1 + 1, b, p2);
    UnaryIsExpression(toks, p2 + 1, c, p3);
    EqualityStart(toks, p0, a, p1);
    TwoEqualities(toks, p1, a, b, p2, c, p3);
    LiftToExpression(toks, p0, Binary(toks[p2], Binary(toks[p1], a, b), c), p3);
  }

  lemma TwoEqualities(toks: seq<Token>, p1: nat, a: CNode, b: CNode, p2: nat, c: CNode, p3: nat)
    requires p1 < p2 < p3 <= |toks| && Listed(toks, p1, [EQ, NE]) && Listed(toks, p2, [EQ, NE])
    requires RelationalAt(toks, p1 + 1) == Done(b, p2) && RelationalAt(toks, p2 + 1) == Done(c, p3)
    requires Ends(toks, p3)
    ensures EqualityTail(toks, p1, a) == Done(Binary(toks[p2], Binary(toks[p1], a, b), c), p3)
  {
    var ab := Binary(toks[p1], a, b);
    EqualityStep(toks, p1, a, b, p2);
    EqualityStep(toks, p2, ab, c, p3);
    EqualityStop(toks, p3, Binary(toks[p2], ab, c));
  }

  /** `<`, `>`, `<=` and `>=` group to the left: `a < b > c` is `(a < b) > c`. */
  lemma RelationalIsLeftAssociative(toks: seq<Token>, p0: nat, a: CNode, p1: nat, b: CNode, p2: nat, c: CNode, p3: nat)
    requires Operand(toks, p0, a, p1) && Listed(toks, p1, [LT, GT, LE, GE])
    requires Operand(toks, p1 + 1, b, p2) && Listed(toks, p2, [LT, GT, LE, GE])
    requires Operand(toks, p2 + 1, c, p3) && Ends(toks, p3)
    ensures ExprAt(toks, p0) == Done(Binary(toks[p2], Binary(toks[p1], a, b), c), p3)
  {
    UnaryIsAdditive(toks, p0, a, p1);
    UnaryIsAdditive(toks, p1 + 1, b, p2);
    UnaryIsAdditive(toks, p2 + 1, c, p3);
    var ab := Binary(toks[p1], a, b);
    var abc := Binary(toks[p2], ab, c);
    RelationalStep(toks, p1, a, b, p2);
    RelationalStep(toks, p2, ab, c, p3);
    assert RelationalAt(toks, p0) == RelationalTail(toks, p3, abc) == Done(abc, p3);
    LiftToEquality(toks, p0, abc, p3);
    LiftToExpression(toks, p0, abc, p3);
  }

  /** `+` and `-` group to the left: `a - b - c` is `(a - b) - c`. */
  lemma AdditiveIsLeftAssociative(toks: seq<Token>, p0: nat, a: CNode, p1: nat, b: CNode, p2: nat, c: CNode, p3: nat)
    requires Operand(toks, p0, a, p1) && Listed(toks, p1, [PLUS, MINUS])
    requires Operand(toks, p1 + 1, b, p2) && Listed(toks, p2, [PLUS, MINUS])
    requires Operand(toks, p2 + 1, c, p3) && Ends(toks, p3)
    ensures ExprAt(toks, p0) == Done(Binary(toks[p2], Binary(toks[p1], a, b), c), p3)
  {
    UnaryIsMultiplicative(toks, p0, a, p1);
    UnaryIsMultiplicative(toks, p1 + 1, b, p2);
    UnaryIsMultiplicative(toks, p2 + 1, c, p3);
    var ab := Binary(toks[p1], a, b);
    var abc := Binary(toks[p2], ab, c);
    AdditiveStep(toks, p1, a, b, p2);
    AdditiveStep(toks, p2, ab, c, p3);
    assert AdditiveAt(toks, p0) == AdditiveTail(toks, p3, abc) == Done(abc, p3);
    LiftToRelational(toks, p0, abc, p3);
    LiftToEquality(toks, p0, abc, p3);
    LiftToExpression(toks, p0, abc, p3);
  }

  /** `*` and `/` group to the left: `a / b * c` is `(a / b) * c`. */
  lemma MultiplicativeIsLeftAssociative(toks: seq<Token>, p0: nat, a: CNode, p1: nat, b: CNode, p2: nat, c: CNode, p3: nat)
    requires Operand(toks, p0, a, p1) && Listed(toks, p1, [MUL, DIV])
    requires Operand(toks, p1 + 1, b, p2) && Listed(toks, p2, [MUL, DIV])
    requires Operand(toks, p2 + 1, c, p3) && Ends(toks, p3)
    ensures ExprAt(toks, p0) == Done(Binary(toks[p2], Binary(toks[p1], a, b), c), p3)
  {
    LiftToExponent(toks, p0, a, p1);
    LiftToExponent(toks, p1 + 1, b, p2);
    LiftToExponent(toks, p2 + 1, c, p3);
    var ab := Binary(toks[p1], a, b);
    var abc := Binary(toks[p2], ab, c);
    MultiplicativeStep(toks, p1, a, b, p2);
    MultiplicativeStep(toks, p2, ab, c, p3);
    assert MultiplicativeAt(toks, p0) == MultiplicativeTail(toks, p3, abc) == Done(abc, p3);
    LiftToAdditive(toks, p0, abc, p3);
    LiftToRelational(toks, p0, abc, p3);
    LiftToEquality(toks, p0, abc, p3);
    LiftToExpression(toks, p0, abc, p3);
  }

  /** `**` binds tighter than products: `a * b ** c` is `a * (b ** c)`. */
  lemma ExponentBindsTighterThanMultiplicative(toks: seq<Token>, p0: nat, a: CNode, p1: nat, b: CNode, p2: nat, c: CNode, p3: nat)
    requires Operand(toks, p0, a, p1) && Listed(toks, p1, [MUL, DIV])
    requires Operand(toks, p1 + 1, b, p2) && Listed(toks, p2, [EXP])
    requires Operand(toks, p2 + 1, c, p3) && Ends(toks, p3)
    ensures ExprAt(toks, p0) == Done(Binary(toks[p1], a, Binary(toks[p2], b, c)), p3)
  {
    LiftToExponent(toks, p0, a, p1);
    LiftToExponent(toks, p2 + 1, c, p3);
    var bc := Binary(toks[p2], b, c);
    assert ExponentAt(toks, p1 + 1) == Done(bc, p3);
    var abc := Binary(toks[p1], a, bc);
    MultiplicativeStep(toks, p1, a, bc, p3);
    assert MultiplicativeAt(toks, p0) == MultiplicativeTail(toks, p3, abc) == Done(abc, p3);
    LiftToAdditive(toks, p0, abc, p3);
    LiftToRelational(toks, p0, abc, p3);
    LiftToEquality(toks, p0, abc, p3);
    LiftToExpression(toks, p0, abc, p3);
  }

  /** A leading minus binds tighter than `**`: `- a ** b` is `(- a) ** b`, because
      `expr_exponent` reads its left operand with `expr_unary`. */
  lemma {:induction false} NegationBindsTighterThanPower(toks: seq<Token>, p0: nat, a: CNode, p1: nat, b: CNode, p2: nat)
    requires Listed(toks, p0, [MINUS]) && Operand(toks, p0 + 1, a, p1) && Listed(toks, p1, [EXP])
    requires Operand(toks, p1 + 1, b, p2) && Ends(toks, p2)
    ensures ExprAt(toks, p0) == Done(Binary(toks[p1], Unary(toks[p0], a), b), p2)
  {
    var na := Unary(toks[p0], a);
    assert UnaryAt(toks, p0) == Done(na, p1);
    LiftToExponent(toks, p1 + 1, b, p2);
    var nab := Binary(toks[p1], na, b);
    assert ExponentAt(toks, p0) == Done(nab, p2);
    LiftToMultiplicative(toks, p0, nab, p2);
    LiftToAdditive(toks, p0, nab, p2);
    LiftToRelational(toks, p0, nab, p2);
    LiftToEquality(toks, p0, nab, p2);
    LiftToExpression(toks, p0, nab, p2);
  }

  /** Equality binds tighter than assignment: `a : b = c` assigns `b = c` to `a`. */
  lemma EqualityBindsTighterThanAssignment(toks: seq<Token>, p0: nat, a: CNode, p1: nat, b: CNode, p2: nat, c: CNode, p3: nat)
    requires Operand(toks, p0, a, p1) && Listed(toks, p1, [COLON])
    requires Operand(toks, p1 + 1, b, p2) && Listed(toks, p2, [EQ, NE])
    requires Operand(toks, p2 + 1, c, p3) && Ends(toks, p3)
    ensures ExprAt(toks, p0) == Done(Binary(toks[p1], a, Binary(toks[p2], b, c)), p3)
  {
    UnaryIsRelational(toks, p0, a, p1);
    LiftToEquality(toks, p0, a, p1);
    UnaryIsRelational(toks, p1 + 1, b, p2);
    UnaryIsExpression(toks, p2 + 1, c, p3);
    var bc := Binary(toks[p2], b, c);
    EqualityStart(toks, p1 + 1, b, p2);
    EqualityStep(toks, p2, b, c, p3);
    EqualityStop(toks, p3, bc);
    LiftToExpression(toks, p1 + 1, bc, p3);
    assert AssignmentAt(toks, p0) == Done(Binary(toks[p1], a, bc), p3);
  }

  /** Comparisons bind tighter than equality: `a = b < c` is `a = (b < c)`. */
  lemma RelationalBindsTighterThanEquality(toks: seq<Token>, p0: nat, a: CNode, p1: nat, b: CNode, p2: nat, c: CNode, p3: nat)
    requires Operand(toks, p0, a, p1) && Listed(toks, p1, [EQ, NE])
    requires Operand(toks, p1 + 1, b, p2) && Listed(toks, p2, [LT, GT, LE, GE])
    requires Operand(toks, p2 + 1, c, p3) && Ends(toks, p3)
    ensures ExprAt(toks, p0) == Done(Binary(toks[p1], a, Binary(toks[p2], b, c)), p3)
  {
    UnaryIsRelational(toks, p0, a, p1);
    UnaryIsAdditive(toks, p1 + 1, b, p2);
    UnaryIsAdditive(toks, p2 + 1, c, p3);
    var bc := Binary(toks[p2], b, c);
    RelationalStep(toks, p2, b, c, p3);
    assert RelationalAt(toks, p1 + 1) == RelationalTail(toks, p3, bc) == Done(bc, p3);
    var abc := Binary(toks[p1], a, bc);
    EqualityStart(toks, p0, a, p1);
    EqualityStep(toks, p1, a, bc, p3);
    EqualityStop(toks, p3, abc);
    LiftToExpression(toks, p0, abc, p3);
  }

  /** Sums bind tighter than comparisons: `a < b + c` is `a < (b + c)`. */
  lemma AdditiveBindsTighterThanRelational(toks: seq<Token>, p0: nat, a: CNode, p1: nat, b: CNode, p2: nat, c: CNode, p3: nat)
    requires Operand(toks, p0, a, p1) && Listed(toks, p1, [LT, GT, LE, GE])
    requires Operand(toks, p1 + 1, b, p2) && Listed(toks, p2, [PLUS, MINUS])
    requires Operand(toks, p2 + 1, c, p3) && Ends(toks, p3)
    ensures ExprAt(toks, p0) == Done(Binary(toks[p1], a, Binary(toks[p2], b, c)), p3)
  {
    UnaryIsAdditive(toks, p0, a, p1);
    UnaryIsMultiplicative(toks, p1 + 1, b, p2);
    UnaryIsMultiplicative(toks, p2 + 1, c, p3);
    var bc := Binary(toks[p2], b, c);
    AdditiveStep(toks, p2, b, c, p3);
    assert AdditiveAt(toks, p1 + 1) == AdditiveTail(toks, p3, bc) == Done(bc, p3);
    var abc := Binary(toks[p1], a, bc);
    RelationalStep(toks, p1, a, bc, p3);
    assert RelationalAt(toks, p0) == RelationalTail(toks, p3, abc) == Done(abc, p3);
    LiftToEquality(toks, p0, abc, p3);
    LiftToExpression(toks, p0, abc, p3);
  }

  /** Products bind tighter than sums: `a + b * c` is `a + (b * c)`. */
  lemma MultiplicativeBindsTighterThanAdditive(toks: seq<Token>, p0: nat, a: CNode, p1: nat, b: CNode, p2: nat, c: CNode, p3: nat)
    requires Operand(toks, p0, a, p1) && Listed(toks, p1, [PLUS, MINUS])
    requires Operand(toks, p1 + 1, b, p2) && Listed(toks, p2, [MUL, DIV])
    requires Operand(toks, p2 + 1, c, p3) && Ends(toks, p3)
    ensures ExprAt(toks, p0) == Done(Binary(toks[p1], a, Binary(toks[p2], b, c)), p3)
  {
    UnaryIsMultiplicative(toks, p0, a, p1);
    LiftToExponent(toks, p1 + 1, b, p2);
    UnaryIsExpression(toks, p2 + 1, c, p3);
    var bc := Binary(toks[p2], b, c);
    assert MultiplicativeAt(toks, p1 + 1) == MultiplicativeTail(toks, p2, b) == Done(bc, p3);
    var abc := Binary(toks[p1], a, bc);
    assert AdditiveAt(toks, p0) == AdditiveTail(toks, p1, a) == Done(abc, p3);
    LiftToRelational(toks, p0, abc, p3);
    LiftToEquality(toks, p0, abc, p3);
    LiftToExpression(toks, p0, abc, p3);
  }

  /** `**` groups to the right: `a ** b ** c` is `a ** (b ** c)`. */
  lemma PowerIsRightAssociative(toks: seq<Token>, p0: nat, a: CNode, p1: nat, b: CNode, p2: nat, c: CNode, p3: nat)
    requires Operand(toks, p0, a, p1) && Listed(toks, p1, [EXP])
    requires Operand(toks, p1 + 1, b, p2) && Listed(toks, p2, [EXP])
    requires Operand(toks, p2 + 1, c, p3) && Ends(toks, p3)
    ensures ExprAt(toks, p0) == Done(Binary(toks[p1], a, Binary(toks[p2], b, c)), p3)
  {
    LiftToExponent(toks, p2 + 1, c, p3);
    var bc := Binary(toks[p2], b, c);
    assert ExponentAt(toks, p1 + 1) == Done(bc, p3);
    var abc := Binary(toks[p1], a, bc);
    assert ExponentAt(toks, p0) == Done(abc, p3);
    LiftToMultiplicative(toks, p0, abc, p3);
    LiftToAdditive(toks, p0, abc, p3);
    LiftToRelational(toks, p0, abc, p3);
    LiftToEquality(toks, p0, abc, p3);
    LiftToExpression(toks, p0, abc, p3);
  }

  /** `:` groups to the right: `a : b : c` assigns `b : c` to `a`. */
  lemma AssignmentIsRightAssociative(toks: seq<Token>, p0: nat, a: CNode, p1: nat, b: CNode, p2: nat, c: CNode, p3: nat)
    requires Operand(toks, p0, a, p1) && Listed(toks, p1, [COLON])
    requires Operand(toks, p1 + 1, b, p2) && Listed(toks, p2, [COLON])
    requires Operand(toks, p2 + 1, c, p3) && Ends(toks, p3)
    ensures ExprAt(toks, p0) == Done(Binary(toks[p1], a, Binary(toks[p2], b, c)), p3)
  {
    UnaryIsRelational(toks, p0, a, p1);
    LiftToEquality(toks, p0, a, p1);
    UnaryIsRelational(toks, p1 + 1, b, p2);
    LiftToEquality(toks, p1 + 1, b, p2);
    UnaryIsExpression(toks, p2 + 1, c, p3);
    var bc := Binary(toks[p2], b, c);
    assert AssignmentAt(toks, p1 + 1) == Done(bc, p3);
    assert AssignmentAt(toks, p0) == Done(Binary(toks[p1], a, bc), p3);
  }

  /** `parser_parse` reads one expression: what follows it, a `.` included, is left unread. */
  lemma ParseStopsAfterExpression(toks: seq<Token>, e: CNode, q: nat)
    requires Operand(toks, 0, e, q) && Listed(toks, q, [PERIOD])
    ensures ExprAt(toks, 0) == Done(e, q)
  {
    UnaryIsExpression(toks, 0, e, q);
  }

  /** The positions `ps` delimit the expressions `args`, one after the other, none of them
      empty and none starting at a `)`. */
  predicate ArgumentsAt(toks: seq<Token>, ps: seq<nat>, args: seq<CNode>) {
    |ps| == |args| + 1 &&
    (forall k :: 0 <= k < |ps| ==> ps[k] <= |toks|) &&
    (forall k :: 0 <= k < |args| ==>
       ps[k] < ps[k + 1] && !Listed(toks, ps[k], [RPAREN]) && ExprAt(toks, ps[k]) == Done(args[k], ps[k + 1]))
  }

  /** A call collects its arguments in order, with no separators, up to the `)` that follows
      the last one, and steps over that `)`. */
  lemma {:induction false} CallReadsArguments(toks: seq<Token>, ps: seq<nat>, callee: string, done: seq<CNode>, args: seq<CNode>)
    requires ArgumentsAt(toks, ps, args) && Listed(toks, ps[|args|], [RPAREN])
    ensures ArgumentsTail(toks, ps[0], callee, done) == Done(Call(callee, done + args), ps[|args|] + 1)
    decreases |args|
  {
    if args == [] {
      assert done + args == done;
    } else {
      assert ArgumentsAt(toks, ps[1..], args[1..]);
      CallReadsArguments(toks, ps[1..], callee, done + [args[0]], args[1..]);
      assert done + [args[0]] + args[1..] == done + args;
    }
  }

  /** Nothing at `pos` can start or continue an expression: the end of the tokens, or a token
      that is neither an operand, `(`, `-` nor a binary operator. */
  predicate Stalls(toks: seq<Token>, pos: nat) {
    pos >= |toks| || toks[pos].kind !in ExpressionStarts + BinaryOperators
  }

  /** Where nothing can be read, `expr` reports "expected expression" and reads no token. */
  lemma NothingToRead(toks: seq<Token>, pos: nat)
    requires pos <= |toks| && Stalls(toks, pos)
    ensures ExprAt(toks, pos) == Done(Error(ExpectedExpression), pos)
  {
    assert UnaryAt(toks, pos) == Done(Error(ExpectedExpression), pos);
    UnaryIsExpression(toks, pos, Error(ExpectedExpression), pos);
  }

  /** An argument list that reaches a token that starts no expression, or the end of the tokens,
      before its `)` never ends. */
  lemma UnclosedArgumentsDiverge(toks: seq<Token>, pos: nat, callee: string, args: seq<CNode>)
    requires pos <= |toks| && Stalls(toks, pos) && !Listed(toks, pos, [RPAREN])
    ensures ArgumentsTail(toks, pos, callee, args) == Diverges(pos)
  {
    NothingToRead(toks, pos);
  }

  /** A block that reaches a token that is neither one of its terminators, nor a statement
      keyword, nor a `.`, nor the start of an expression, never ends. */
  lemma StrayTokenStallsBlock(toks: seq<Token>, pos: nat, types: seq<TokenType>, done: seq<CNode>)
    requires pos < |toks| && Stalls(toks, pos)
    requires !Listed(toks, pos, types) && !Listed(toks, pos, [PERIOD, IF, WHILE, ROUTINE])
    ensures BlockTail(toks, pos, types, done) == Diverges(pos)
  {
    NothingToRead(toks, pos);
    assert StmtAt(toks, pos) == ExprStmtAt(toks, pos) == Done(ExprStmt(Error(ExpectedExpression)), pos);
  }

  /** `program` reads expression statements only: a statement that starts with `if`, `while` or
      `routine` makes it spin. */
  lemma ProgramStallsOnKeyword(toks: seq<Token>, pos: nat, done: seq<CNode>)
    requires pos < |toks| && Listed(toks, pos, [IF, WHILE, ROUTINE])
    ensures ProgramTail(toks, pos, done) == Diverges(pos)
  {
    NothingToRead(toks, pos);
    assert ExprStmtAt(toks, pos) == Done(ExprStmt(Error(ExpectedExpression)), pos);
  }

  /** An if statement gets an else block exactly when its then block stops at `else`; a then
      block that stops at `end`, or runs to the end of the tokens, leaves it without one. */
  lemma ElseOnlyAfterElseKeyword(toks: seq<Token>, pos: nat, c: CNode, p1: nat, t: CNode, p2: nat)
    requires pos < p1 <= |toks| && Listed(toks, pos, [IF]) && ExprAt(toks, pos + 1) == Done(c, p1)
    requires BlockTail(toks, ConsumedTo(toks, p1, [THEN]), [ELSE, END], []) == Done(t, p2)
    ensures IfAt(toks, pos).Done? && IfAt(toks, pos).value.elseBlock.Some? ==> Listed(toks, p2, [ELSE])
    ensures !Listed(toks, p2, [ELSE]) ==> IfAt(toks, pos) == Done(If(c, t, None), ConsumedTo(toks, p2, [END]))
    ensures p2 == |toks| ==> IfAt(toks, pos) == Done(If(c, t, None), |toks|)
  {
  }

  /** The parameters of a routine up to position `k` are identifiers, and what stands at `k` is
      neither an identifier nor `)`, or the tokens end there. */
  predicate BadParameterAt(toks: seq<Token>, from: nat, k: nat) {
    from <= k <= |toks| && !Listed(toks, k, [RPAREN, IDENTIFIER]) &&
    forall m :: from <= m < k ==> toks[m].kind == IDENTIFIER
  }

  lemma {:induction false} ParamsFaultAt(toks: seq<Token>, pos: nat, params: seq<string>, k: nat)
    requires BadParameterAt(toks, pos, k)
    ensures ParamsTail(toks, pos, params) == Faults(k)
    decreases k - pos
  {
    if pos < k {
      ParamsFaultAt(toks, pos + 1, params + [toks[pos].lexeme], k);
    }
  }

  /** In `routine f(` a parameter that is not an identifier, or a list that runs out of tokens
      before `)`, makes `stmt_routine` read the lexeme of a NULL token. */
  lemma NonIdentifierParameterFaults(toks: seq<Token>, pos: nat, k: nat)
    requires pos + 3 <= |toks| && Listed(toks, pos, [ROUTINE])
    requires Listed(toks, pos + 1, [IDENTIFIER]) && Listed(toks, pos + 2, [LPAREN])
    requires BadParameterAt(toks, pos + 3, k)
    ensures RoutineAt(toks, pos) == Faults(k)
  {
    ParamsFaultAt(toks, pos + 3, [], k);
  }

  /** `if x then end` reads as an if statement with no else block. */
  lemma IfWithoutElseIsParsed()
    ensures var toks := [Token(IF, "if"), Token(IDENTIFIER, "x"), Token(THEN, "then"), Token(END, "end")];
            IfAt(toks, 0) == Done(If(Variable("x"), Block([]), None), 4)
  {
    var toks := [Token(IF, "if"), Token(IDENTIFIER, "x"), Token(THEN, "then"), Token(END, "end")];
    assert UnaryAt(toks, 1) == Done(Variable("x"), 2);
    UnaryIsExpression(toks, 1, Variable("x"), 2);
    assert BlockTail(toks, 3, [ELSE, END], []) == Done(Block([]), 3);
  }
}
