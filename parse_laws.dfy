/** What the expression grammar of blast/parser.py guarantees: precedence and associativity of
    the operators, and that every expression tree the parser can build is read back from its
    fully parenthesised token form. */
module ParseLaws {
  import opened Wrappers
  import opened Text
  import opened Tokens
  import opened Ast
  import opened Parsing

  /** No binary operator follows position `q`, so every precedence level stops there. */
  predicate Ends(toks: seq<Token>, q: nat) {
    !CheckAt(toks, q, BinaryKinds)
  }

  // Each level returns what the level below returned when the next token is not one of its
  // operators.

  lemma LiftToExponent(toks: seq<Token>, p: nat, e: Node, q: nat)
    requires p <= q <= |toks| && UnaryAt(toks, p) == Ok(Parsed(e, q)) && !CheckAt(toks, q, {EXP})
    ensures ExponentAt(toks, p) == Ok(Parsed(e, q))
  {
  }

  lemma LiftToMultiplication(toks: seq<Token>, p: nat, e: Node, q: nat)
    requires p <= q <= |toks| && ExponentAt(toks, p) == Ok(Parsed(e, q)) && !CheckAt(toks, q, {MUL, DIV, MOD})
    ensures MultiplicationAt(toks, p) == Ok(Parsed(e, q))
  {
  }

  lemma LiftToAddition(toks: seq<Token>, p: nat, e: Node, q: nat)
    requires p <= q <= |toks| && MultiplicationAt(toks, p) == Ok(Parsed(e, q)) && !CheckAt(toks, q, {PLUS, MINUS})
    ensures AdditionAt(toks, p) == Ok(Parsed(e, q))
  {
  }

  lemma LiftToExpression(toks: seq<Token>, p: nat, e: Node, q: nat)
    requires p <= q <= |toks| && AdditionAt(toks, p) == Ok(Parsed(e, q)) && !CheckAt(toks, q, {COLON})
    ensures ExpressionAt(toks, p) == Ok(Parsed(e, q))
  {
  }

  /** A unary operand followed by no operator is a whole expression. */
  lemma UnaryIsExpression(toks: seq<Token>, p: nat, e: Node, q: nat)
    requires p <= q <= |toks| && UnaryAt(toks, p) == Ok(Parsed(e, q)) && Ends(toks, q)
    ensures ExponentAt(toks, p) == Ok(Parsed(e, q))
    ensures MultiplicationAt(toks, p) == Ok(Parsed(e, q))
    ensures AdditionAt(toks, p) == Ok(Parsed(e, q))
    ensures ExpressionAt(toks, p) == Ok(Parsed(e, q))
  {
    LiftToExponent(toks, p, e, q);
    LiftToMultiplication(toks, p, e, q);
    LiftToAddition(toks, p, e, q);
    LiftToExpression(toks, p, e, q);
  }

  /** `+` and `-` group to the left: `a - b - c` is `(a - b) - c`. */
  lemma SumIsLeftAssociative(toks: seq<Token>, p0: nat, a: Node, p1: nat, b: Node, p2: nat, c: Node, p3: nat)
    requires p0 <= p1 <= |toks| && UnaryAt(toks, p0) == Ok(Parsed(a, p1)) && CheckAt(toks, p1, {PLUS, MINUS})
    requires p1 < p2 <= |toks| && UnaryAt(toks, p1 + 1) == Ok(Parsed(b, p2)) && CheckAt(toks, p2, {PLUS, MINUS})
    requires p2 < p3 <= |toks| && UnaryAt(toks, p2 + 1) == Ok(Parsed(c, p3)) && Ends(toks, p3)
    ensures ExpressionAt(toks, p0) == Ok(Parsed(Binary(toks[p2], Binary(toks[p1], a, b), c), p3))
  {
    LiftToExponent(toks, p0, a, p1);
    LiftToMultiplication(toks, p0, a, p1);
    LiftToExponent(toks, p1 + 1, b, p2);
    LiftToMultiplication(toks, p1 + 1, b, p2);
    UnaryIsExpression(toks, p2 + 1, c, p3);
    var ab := Binary(toks[p1], a, b);
    assert AdditionTail(toks, p2, ab) == Ok(Parsed(Binary(toks[p2], ab, c), p3));
    assert AdditionAt(toks, p0) == AdditionTail(toks, p1, a) == AdditionTail(toks, p2, ab);
    LiftToExpression(toks, p0, Binary(toks[p2], ab, c), p3);
  }

  /** `*`, `/` and `%` bind tighter than `+` and `-` and group to the left among themselves:
      `a + b * c / d` is `a + ((b * c) / d)`. */
  lemma ProductsGroupBeforeSum(toks: seq<Token>, p0: nat, a: Node, p1: nat, b: Node, p2: nat, c: Node, p3: nat, d: Node, p4: nat)
    requires p0 <= p1 <= |toks| && UnaryAt(toks, p0) == Ok(Parsed(a, p1)) && CheckAt(toks, p1, {PLUS, MINUS})
    requires p1 < p2 <= |toks| && UnaryAt(toks, p1 + 1) == Ok(Parsed(b, p2)) && CheckAt(toks, p2, {MUL, DIV, MOD})
    requires p2 < p3 <= |toks| && UnaryAt(toks, p2 + 1) == Ok(Parsed(c, p3)) && CheckAt(toks, p3, {MUL, DIV, MOD})
    requires p3 < p4 <= |toks| && UnaryAt(toks, p3 + 1) == Ok(Parsed(d, p4)) && Ends(toks, p4)
    ensures ExpressionAt(toks, p0) ==
      Ok(Parsed(Binary(toks[p1], a, Binary(toks[p3], Binary(toks[p2], b, c), d)), p4))
  {
    LiftToExponent(toks, p0, a, p1);
    LiftToMultiplication(toks, p0, a, p1);
    LiftToExponent(toks, p1 + 1, b, p2);
    LiftToExponent(toks, p2 + 1, c, p3);
    UnaryIsExpression(toks, p3 + 1, d, p4);
    var bc := Binary(toks[p2], b, c);
    var bcd := Binary(toks[p3], bc, d);
    assert MultiplicationTail(toks, p3, bc) == Ok(Parsed(bcd, p4));
    assert MultiplicationAt(toks, p1 + 1) == MultiplicationTail(toks, p2, b) == Ok(Parsed(bcd, p4));
    assert AdditionTail(toks, p4, Binary(toks[p1], a, bcd)) == Ok(Parsed(Binary(toks[p1], a, bcd), p4));
    assert AdditionAt(toks, p0) == AdditionTail(toks, p1, a);
    LiftToExpression(toks, p0, Binary(toks[p1], a, bcd), p4);
  }

  /** `**` groups to the right: `a ** b ** c` is `a ** (b ** c)`. */
  lemma PowerIsRightAssociative(toks: seq<Token>, p0: nat, a: Node, p1: nat, b: Node, p2: nat, c: Node, p3: nat)
    requires p0 <= p1 <= |toks| && UnaryAt(toks, p0) == Ok(Parsed(a, p1)) && CheckAt(toks, p1, {EXP})
    requires p1 < p2 <= |toks| && UnaryAt(toks, p1 + 1) == Ok(Parsed(b, p2)) && CheckAt(toks, p2, {EXP})
    requires p2 < p3 <= |toks| && UnaryAt(toks, p2 + 1) == Ok(Parsed(c, p3)) && Ends(toks, p3)
    ensures ExpressionAt(toks, p0) == Ok(Parsed(Binary(toks[p1], a, Binary(toks[p2], b, c)), p3))
  {
    UnaryIsExpression(toks, p2 + 1, c, p3);
    var bc := Binary(toks[p2], b, c);
    assert ExponentAt(toks, p1 + 1) == Ok(Parsed(bc, p3));
    var abc := Binary(toks[p1], a, bc);
    assert ExponentAt(toks, p0) == Ok(Parsed(abc, p3));
    LiftToMultiplication(toks, p0, abc, p3);
    LiftToAddition(toks, p0, abc, p3);
    LiftToExpression(toks, p0, abc, p3);
  }

  /** The base of `**` is a whole unary expression: `- a ** b` is `(- a) ** b`. */
  lemma NegationBindsTighterThanPower(toks: seq<Token>, p0: nat, a: Node, p1: nat, b: Node, p2: nat)
    requires p0 < p1 <= |toks| && CheckAt(toks, p0, {MINUS}) && UnaryAt(toks, p0 + 1) == Ok(Parsed(a, p1))
    requires CheckAt(toks, p1, {EXP})
    requires p1 < p2 <= |toks| && UnaryAt(toks, p1 + 1) == Ok(Parsed(b, p2)) && Ends(toks, p2)
    ensures ExpressionAt(toks, p0) == Ok(Parsed(Binary(toks[p1], Unary(toks[p0], a), b), p2))
  {
    UnaryIsExpression(toks, p1 + 1, b, p2);
    var e := Binary(toks[p1], Unary(toks[p0], a), b);
    assert UnaryAt(toks, p0) == Ok(Parsed(Unary(toks[p0], a), p1));
    assert ExponentAt(toks, p0) == Ok(Parsed(e, p2));
    LiftToMultiplication(toks, p0, e, p2);
    LiftToAddition(toks, p0, e, p2);
    LiftToExpression(toks, p0, e, p2);
  }

  /** `:` groups to the right: `a : b : c` assigns `b : c` to `a`. */
  lemma AssignmentIsRightAssociative(toks: seq<Token>, p0: nat, a: Node, p1: nat, b: Node, p2: nat, c: Node, p3: nat)
    requires p0 <= p1 <= |toks| && UnaryAt(toks, p0) == Ok(Parsed(a, p1)) && CheckAt(toks, p1, {COLON})
    requires p1 < p2 <= |toks| && UnaryAt(toks, p1 + 1) == Ok(Parsed(b, p2)) && CheckAt(toks, p2, {COLON})
    requires p2 < p3 <= |toks| && UnaryAt(toks, p2 + 1) == Ok(Parsed(c, p3)) && Ends(toks, p3)
    ensures ExpressionAt(toks, p0) == Ok(Parsed(Binary(toks[p1], a, Binary(toks[p2], b, c)), p3))
  {
    LiftToExponent(toks, p0, a, p1);
    LiftToMultiplication(toks, p0, a, p1);
    LiftToAddition(toks, p0, a, p1);
    LiftToExponent(toks, p1 + 1, b, p2);
    LiftToMultiplication(toks, p1 + 1, b, p2);
    LiftToAddition(toks, p1 + 1, b, p2);
    UnaryIsExpression(toks, p2 + 1, c, p3);
    var bc := Binary(toks[p2], b, c);
    assert AssignmentAt(toks, p1 + 1) == Ok(Parsed(bc, p3));
    assert AssignmentAt(toks, p0) == Ok(Parsed(Binary(toks[p1], a, bc), p3));
  }

  /** The expression trees the parser builds: binary nodes carry one of the grammar's operator
      tokens, unary nodes a minus, and numbers are what a NUMBER lexeme converts to. */
  predicate WellFormed(e: Node) {
    match e
    case Binary(op, a, b) => op.kind in BinaryKinds && WellFormed(a) && WellFormed(b)
    case Unary(op, x) => op.kind == MINUS && WellFormed(x)
    case Number(v) => if v.IntNumber? then v.i >= 0 else AllDigits(v.frac)
    case Str(_) => true
    case Variable(_) => true
    case _ => false
  }

  /** A lexeme that converts to `v` (when `v` is well formed). */
  function NumberLexeme(v: NumberValue): string {
    match v
    case IntNumber(i) => IntToString(i)
    case FloatNumber(whole, frac) => NatToString(whole) + "." + frac
  }

  lemma NumberLexemeConverts(v: NumberValue)
    requires WellFormed(Number(v))
    ensures NumberLiteral(NumberLexeme(v)) == Ok(v)
  {
    match v
    case IntNumber(i) =>
      NatToStringRoundTrip(i);
    case FloatNumber(whole, frac) =>
      var w := NatToString(whole);
      var s := NumberLexeme(v);
      NatToStringRoundTrip(whole);
      assert s[|w|] == '.';
      assert forall k :: 0 <= k < |w| ==> s[k] == w[k] && s[k] != '.';
      var i := PointIndex(s);
      assert i == |w|;
      assert s[..i] == w && s[i + 1..] == frac;
  }

  const LeftParen: Token := Token(LPAREN, "(")
  const RightParen: Token := Token(RPAREN, ")")

  /** Tokens that spell an expression tree, every binary node in parentheses (a statement node
      is no expression and spells nothing). */
  function Unparse(e: Node): (u: seq<Token>)
    ensures IsExpression(e) ==> |u| >= 1
  {
    match e
    case Binary(op, a, b) => [LeftParen] + Unparse(a) + [op] + Unparse(b) + [RightParen]
    case Unary(op, x) => [op] + Unparse(x)
    case Number(v) => [Token(NUMBER, NumberLexeme(v))]
    case Str(s) => [Token(STRING, s)]
    case Variable(name) => [Token(IDENTIFIER, name)]
    case _ => []
  }

  /** `u` sits in `toks` at `pos`. */
  predicate At(toks: seq<Token>, pos: nat, u: seq<Token>) {
    pos + |u| <= |toks| && toks[pos..pos + |u|] == u
  }

  lemma SliceAt(toks: seq<Token>, pos: nat, u: seq<Token>, i: nat, j: nat)
    requires At(toks, pos, u) && i <= j <= |u|
    ensures At(toks, pos + i, u[i..j])
  {
    var s := toks[pos + i..pos + j];
    forall k | 0 <= k < j - i
      ensures s[k] == u[i..j][k]
    {
      assert s[k] == toks[pos + i + k] == toks[pos..pos + |u|][i + k];
    }
  }

  /** The pieces of a unary node's tokens. */
  lemma AtUnary(toks: seq<Token>, pos: nat, op: Token, x: Node)
    requires WellFormed(Unary(op, x)) && At(toks, pos, Unparse(Unary(op, x)))
    ensures toks[pos] == op && At(toks, pos + 1, Unparse(x))
    ensures |Unparse(Unary(op, x))| == 1 + |Unparse(x)|
  {
    var u, ux := Unparse(Unary(op, x)), Unparse(x);
    assert toks[pos] == u[0];
    SliceAt(toks, pos, u, 1, |u|);
    assert u[1..] == ux;
  }

  /** Where the pieces of `( a op b )` sit from `pos` on: `(` at `pos`, the left operand's
      tokens, the operator at `q1`, the right operand's tokens and `)` at `q2`. */
  predicate ParenthesisedTokens(toks: seq<Token>, pos: nat, ua: seq<Token>, op: Token, ub: seq<Token>, q1: nat, q2: nat) {
    q1 == pos + 1 + |ua| && q2 == q1 + 1 + |ub| && q2 < |toks| &&
    toks[pos] == LeftParen && At(toks, pos + 1, ua) && toks[q1] == op && At(toks, q1 + 1, ub) && toks[q2] == RightParen
  }

  /** The pieces of a parenthesised binary node's tokens. */
  lemma AtParenthesised(toks: seq<Token>, pos: nat, ua: seq<Token>, op: Token, ub: seq<Token>, q1: nat, q2: nat)
    requires At(toks, pos, [LeftParen] + ua + [op] + ub + [RightParen])
    requires q1 == pos + 1 + |ua| && q2 == q1 + 1 + |ub|
    ensures ParenthesisedTokens(toks, pos, ua, op, ub, q1, q2)
  {
    var u := [LeftParen] + ua + [op] + ub + [RightParen];
    assert toks[pos] == u[0];
    SliceAt(toks, pos, u, 1, 1 + |ua|);
    assert u[1..1 + |ua|] == ua;
    assert toks[q1] == u[1 + |ua|];
    SliceAt(toks, pos, u, 2 + |ua|, 2 + |ua| + |ub|);
    assert u[2 + |ua|..2 + |ua| + |ub|] == ub;
    assert toks[q2] == u[|u| - 1];
  }

  /** The parenthesised body `a op b` followed by `)` is read as the binary node, whatever
      level `op` belongs to. */
  lemma BinaryBody(toks: seq<Token>, p1: nat, op: Token, a: Node, q1: nat, b: Node, q2: nat)
    requires p1 <= q1 < q2 < |toks| && UnaryAt(toks, p1) == Ok(Parsed(a, q1))
    requires toks[q1] == op && op.kind in BinaryKinds
    requires UnaryAt(toks, q1 + 1) == Ok(Parsed(b, q2)) && toks[q2].kind == RPAREN
    ensures ExpressionAt(toks, p1) == Ok(Parsed(Binary(op, a, b), q2))
  {
    var e := Binary(op, a, b);
    UnaryIsExpression(toks, q1 + 1, b, q2);
    if op.kind == EXP {
      assert ExponentAt(toks, p1) == Ok(Parsed(e, q2));
      UnaryIsExpressionAbove(toks, p1, e, q2);
    } else if op.kind in {MUL, DIV, MOD} {
      LiftToExponent(toks, p1, a, q1);
      assert MultiplicationTail(toks, q2, e) == Ok(Parsed(e, q2));
      assert MultiplicationAt(toks, p1) == Ok(Parsed(e, q2));
      LiftToAddition(toks, p1, e, q2);
      LiftToExpression(toks, p1, e, q2);
    } else if op.kind in {PLUS, MINUS} {
      LiftToExponent(toks, p1, a, q1);
      LiftToMultiplication(toks, p1, a, q1);
      assert AdditionTail(toks, q2, e) == Ok(Parsed(e, q2));
      assert AdditionAt(toks, p1) == Ok(Parsed(e, q2));
      LiftToExpression(toks, p1, e, q2);
    } else {
      LiftToExponent(toks, p1, a, q1);
      LiftToMultiplication(toks, p1, a, q1);
      LiftToAddition(toks, p1, a, q1);
      assert AssignmentAt(toks, q1 + 1) == Ok(Parsed(b, q2));
    }
  }

  /** An exponent followed by `)` is a whole expression. */
  lemma UnaryIsExpressionAbove(toks: seq<Token>, p: nat, e: Node, q: nat)
    requires p <= q < |toks| && ExponentAt(toks, p) == Ok(Parsed(e, q)) && toks[q].kind == RPAREN
    ensures ExpressionAt(toks, p) == Ok(Parsed(e, q))
  {
    LiftToMultiplication(toks, p, e, q);
    LiftToAddition(toks, p, e, q);
    LiftToExpression(toks, p, e, q);
  }

  /** A number, string or identifier token is read back as its leaf. */
  lemma UnaryReadsLeaf(toks: seq<Token>, pos: nat, e: Node)
    requires WellFormed(e) && (e.Number? || e.Str? || e.Variable?) && At(toks, pos, Unparse(e))
    ensures UnaryAt(toks, pos) == Ok(Parsed(e, pos + 1))
  {
    assert toks[pos] == Unparse(e)[0];
    if e.Number? {
      NumberLexemeConverts(e.num);
    }
  }

  /** `- x` is read back as the unary node once `x` is. */
  lemma UnaryReadsNegation(toks: seq<Token>, pos: nat, op: Token, x: Node, q: nat)
    requires pos < q <= |toks| && toks[pos] == op && op.kind == MINUS
    requires UnaryAt(toks, pos + 1) == Ok(Parsed(x, q))
    ensures UnaryAt(toks, pos) == Ok(Parsed(Unary(op, x), q))
  {
  }

  /** The parts of `( a op b )` from `pos` on: `_unary` reads `a` from `pos + 1` to `q1`, `op`
      is at `q1`, `_unary` reads `b` from `q1 + 1` to `q2`, and `)` is at `q2`. */
  predicate ParenthesisedParts(toks: seq<Token>, pos: nat, op: Token, a: Node, q1: nat, b: Node, q2: nat) {
    pos < q1 < q2 < |toks| && toks[pos] == LeftParen && UnaryAt(toks, pos + 1) == Ok(Parsed(a, q1)) &&
    toks[q1] == op && op.kind in BinaryKinds &&
    UnaryAt(toks, q1 + 1) == Ok(Parsed(b, q2)) && toks[q2] == RightParen
  }

  /** `( a op b )` is read back as the binary node once `a` and `b` are. */
  lemma UnaryReadsParenthesised(toks: seq<Token>, pos: nat, op: Token, a: Node, q1: nat, b: Node, q2: nat)
    requires ParenthesisedParts(toks, pos, op, a, q1, b, q2)
    ensures UnaryAt(toks, pos) == Ok(Parsed(Binary(op, a, b), q2 + 1))
  {
    BinaryBody(toks, pos + 1, op, a, q1, b, q2);
    assert PrimaryAt(toks, pos) == Ok(Parsed(Binary(op, a, b), q2 + 1));
  }

  /** The tokens of `e`, wherever they sit, are read back by `_unary` as `e`, ending at `q`
      just past them, and nothing after them is looked at. */
  lemma {:induction false} UnaryReadsUnparse(toks: seq<Token>, pos: nat, e: Node, q: nat)
    requires WellFormed(e) && At(toks, pos, Unparse(e)) && q == pos + |Unparse(e)|
    ensures UnaryAt(toks, pos) == Ok(Parsed(e, q))
    decreases e, 3
  {
    match e
    case Number(_) => UnaryReadsLeaf(toks, pos, e);
    case Str(_) => UnaryReadsLeaf(toks, pos, e);
    case Variable(_) => UnaryReadsLeaf(toks, pos, e);
    case Unary(op, x) =>
      AtUnary(toks, pos, op, x);
      UnaryReadsUnparse(toks, pos + 1, x, q);
      UnaryReadsNegation(toks, pos, op, x, q);
    case Binary(op, a, b) =>
      var q1 := pos + 1 + |Unparse(a)|;
      var q2 := q1 + 1 + |Unparse(b)|;
      assert Unparse(e) == [LeftParen] + Unparse(a) + [op] + Unparse(b) + [RightParen];
      AtParenthesised(toks, pos, Unparse(a), op, Unparse(b), q1, q2);
      UnaryReadsBinary(toks, pos, op, a, q1, b, q2);
  }

  lemma {:induction false} UnaryReadsBinary(toks: seq<Token>, pos: nat, op: Token, a: Node, q1: nat, b: Node, q2: nat)
    requires WellFormed(a) && WellFormed(b) && op.kind in BinaryKinds
    requires ParenthesisedTokens(toks, pos, Unparse(a), op, Unparse(b), q1, q2)
    ensures UnaryAt(toks, pos) == Ok(Parsed(Binary(op, a, b), q2 + 1))
    decreases Binary(op, a, b), 1
  {
    OperandsReadUnparse(toks, pos, op, a, q1, b, q2);
    UnaryReadsParenthesised(toks, pos, op, a, q1, b, q2);
  }

  /** Inside the parentheses, each operand's tokens are read back as that operand. */
  lemma {:induction false} OperandsReadUnparse(toks: seq<Token>, pos: nat, op: Token, a: Node, q1: nat, b: Node, q2: nat)
    requires WellFormed(a) && WellFormed(b) && op.kind in BinaryKinds
    requires ParenthesisedTokens(toks, pos, Unparse(a), op, Unparse(b), q1, q2)
    ensures ParenthesisedParts(toks, pos, op, a, q1, b, q2)
    decreases Binary(op, a, b), 0
  {
    UnaryReadsUnparse(toks, pos + 1, a, q1);
    UnaryReadsUnparse(toks, q1 + 1, b, q2);
  }

  /** Round trip: every expression tree the parser builds is read back, exactly and in full,
      from its parenthesised tokens. */
  lemma ExpressionReadsUnparse(e: Node)
    requires WellFormed(e)
    ensures ExpressionAt(Unparse(e), 0) == Ok(Parsed(e, |Unparse(e)|))
  {
    var u := Unparse(e);
    assert u[0..|u|] == u;
    UnaryReadsUnparse(u, 0, e, |u|);
    UnaryIsExpression(u, 0, e, |u|);
  }

  const PeriodToken: Token := Token(PERIOD, ".")
  const IfToken: Token := Token(IF, "if")
  const ThenToken: Token := Token(THEN, "then")
  const ElseToken: Token := Token(ELSE, "else")
  const EndToken: Token := Token(END, "end")
  const WhileToken: Token := Token(WHILE, "while")
  const DoToken: Token := Token(DO, "do")

  /** The statements the parser builds: expression statements over well-formed expressions,
      and if and while statements whose branches and bodies are blocks of such statements. */
  predicate WellFormedStatement(s: Node)
    decreases s, 1
  {
    match s
    case ExprStmt(e) => WellFormed(e)
    case If(c, t, eb) => WellFormed(c) && WellFormedBlock(t) && (eb.Some? ==> WellFormedBlock(eb.value))
    case While(c, body) => WellFormed(c) && WellFormedBlock(body)
    case _ => false
  }

  predicate WellFormedBlock(b: Node)
    decreases b, 0
  {
    b.Block? && forall i :: 0 <= i < |b.stmts| ==> WellFormedStatement(b.stmts[i])
  }

  /** `kw` a `sep` b `close`: the shape of a while statement, of an if statement without else,
      and of an if-else statement up to its `else`. */
  function Framed(kw: Token, uc: seq<Token>, sep: Token, ub: seq<Token>, close: Token): seq<Token> {
    [kw] + uc + [sep] + ub + [close]
  }

  /** Tokens that spell a statement (an expression node is no statement and spells nothing). */
  function UnparseStatement(s: Node): (u: seq<Token>)
    ensures (s.ExprStmt? && IsExpression(s.expr)) || s.If? || s.While? ==> |u| >= 2
    decreases s, 0
  {
    match s
    case ExprStmt(e) => Unparse(e) + [PeriodToken]
    case If(c, t, eb) =>
      if eb.None? then Framed(IfToken, Unparse(c), ThenToken, UnparseBlockFrom(t, 0), EndToken)
      else (Framed(IfToken, Unparse(c), ThenToken, UnparseBlockFrom(t, 0), ElseToken)
            + UnparseBlockFrom(eb.value, 0) + [EndToken])
    case While(c, body) => Framed(WhileToken, Unparse(c), DoToken, UnparseBlockFrom(body, 0), EndToken)
    case _ => []
  }

  /** Tokens that spell the statements of block `b` from the `i`-th on. */
  function UnparseBlockFrom(b: Node, i: nat): (u: seq<Token>)
    decreases b, if b.Block? && i <= |b.stmts| then |b.stmts| - i + 1 else 0
  {
    if !b.Block? || i >= |b.stmts| then [] else UnparseStatement(b.stmts[i]) + UnparseBlockFrom(b, i + 1)
  }

  lemma AtConcat(toks: seq<Token>, pos: nat, u: seq<Token>, v: seq<Token>)
    requires At(toks, pos, u + v)
    ensures At(toks, pos, u) && At(toks, pos + |u|, v)
  {
    SliceAt(toks, pos, u + v, 0, |u|);
    assert (u + v)[0..|u|] == u;
    SliceAt(toks, pos, u + v, |u|, |u + v|);
    assert (u + v)[|u|..|u + v|] == v;
  }

  lemma AtOne(toks: seq<Token>, pos: nat, t: Token)
    requires At(toks, pos, [t])
    ensures pos < |toks| && toks[pos] == t
  {
    assert toks[pos..pos + 1][0] == t;
  }

  /** A statement never starts with `else` or `end`, so a block does not stop before one. */
  lemma StatementStart(s: Node)
    requires WellFormedStatement(s)
    ensures UnparseStatement(s)[0].kind !in {ELSE, END}
  {
    if s.ExprStmt? {
      assert UnparseStatement(s)[0] == Unparse(s.expr)[0];
    }
  }

  /** An expression spelled at `pos`, ending at `q`, where a token that is no operator follows. */
  lemma ExpressionReadsUnparseAt(toks: seq<Token>, pos: nat, e: Node, follow: Token, q: nat)
    requires WellFormed(e) && At(toks, pos, Unparse(e) + [follow]) && follow.kind !in BinaryKinds
    requires q == pos + |Unparse(e)|
    ensures ExpressionAt(toks, pos) == Ok(Parsed(e, q))
    ensures q < |toks| && toks[q] == follow
  {
    AtConcat(toks, pos, Unparse(e), [follow]);
    AtOne(toks, q, follow);
    UnaryReadsUnparse(toks, pos, e, q);
    UnaryIsExpression(toks, pos, e, q);
  }

  lemma ExprStmtReadsUnparse(toks: seq<Token>, pos: nat, e: Node, q: nat)
    requires WellFormed(e) && At(toks, pos, Unparse(e) + [PeriodToken]) && q == pos + |Unparse(e)| + 1
    ensures StatementAt(toks, pos) == Ok(Parsed(ExprStmt(e), q))
  {
    var m := pos + |Unparse(e)|;
    ExpressionReadsUnparseAt(toks, pos, e, PeriodToken, m);
    StatementStart(ExprStmt(e));
    assert Unparse(e)[0] == toks[pos];
  }

  /** The tokens of a statement, spelled from `pos` to `q`, are read back by `_statement` as
      that statement. */
  lemma {:induction false} StatementReadsUnparse(toks: seq<Token>, pos: nat, s: Node, q: nat)
    requires WellFormedStatement(s) && At(toks, pos, UnparseStatement(s)) && q == pos + |UnparseStatement(s)|
    ensures StatementAt(toks, pos) == Ok(Parsed(s, q))
    decreases s, 3
  {
    match s
    case ExprStmt(e) => ExprStmtReadsUnparse(toks, pos, e, q);
    case If(c, t, None) => IfReadsUnparse(toks, pos, c, t, q);
    case If(c, t, Some(e)) => IfElseReadsUnparse(toks, pos, c, t, e, q);
    case While(c, body) => WhileReadsUnparse(toks, pos, c, body, q);
  }

  /** Where the pieces of `Framed(kw, uc, sep, ub, close)` spelled at `pos` sit: `uc` ends at
      `q1`, where `sep` stands, and `ub` ends at `q2`, where `close` stands. */
  predicate FramedAt(toks: seq<Token>, pos: nat, kw: Token, uc: seq<Token>, sep: Token, ub: seq<Token>,
                     close: Token, q1: nat, q2: nat)
  {
    q1 == pos + 1 + |uc| && q2 == q1 + 1 + |ub| && q2 < |toks| &&
    toks[pos] == kw && At(toks, pos + 1, uc + [sep]) && At(toks, q1 + 1, ub) && toks[q2] == close
  }

  lemma AtFramed(toks: seq<Token>, pos: nat, kw: Token, uc: seq<Token>, sep: Token, ub: seq<Token>,
                 close: Token, q1: nat, q2: nat)
    requires At(toks, pos, Framed(kw, uc, sep, ub, close))
    requires q1 == pos + 1 + |uc| && q2 == q1 + 1 + |ub|
    ensures FramedAt(toks, pos, kw, uc, sep, ub, close, q1, q2)
  {
    assert Framed(kw, uc, sep, ub, close) == (([kw] + (uc + [sep])) + ub) + [close];
    AtConcat(toks, pos, ([kw] + (uc + [sep])) + ub, [close]);
    AtConcat(toks, pos, [kw] + (uc + [sep]), ub);
    AtConcat(toks, pos, [kw], uc + [sep]);
    AtOne(toks, pos, kw);
    AtOne(toks, q2, close);
  }

  /** Where the pieces of an if-else statement spelled at `pos` sit: the else block ends at `q3`. */
  lemma AtIfElse(toks: seq<Token>, pos: nat, uc: seq<Token>, ut: seq<Token>, ue: seq<Token>, q1: nat, q2: nat, q3: nat)
    requires At(toks, pos, Framed(IfToken, uc, ThenToken, ut, ElseToken) + ue + [EndToken])
    requires q1 == pos + 1 + |uc| && q2 == q1 + 1 + |ut| && q3 == q2 + 1 + |ue|
    ensures FramedAt(toks, pos, IfToken, uc, ThenToken, ut, ElseToken, q1, q2)
    ensures At(toks, q2 + 1, ue) && q3 < |toks| && toks[q3] == EndToken
  {
    var head := Framed(IfToken, uc, ThenToken, ut, ElseToken);
    AtConcat(toks, pos, head + ue, [EndToken]);
    AtConcat(toks, pos, head, ue);
    AtFramed(toks, pos, IfToken, uc, ThenToken, ut, ElseToken, q1, q2);
    AtOne(toks, q3, EndToken);
  }

  /** `kw` at `pos`, then an expression read as `c` up to `q1`, where `sep` stands. */
  predicate ConditionRead(toks: seq<Token>, pos: nat, kw: Token, c: Node, sep: Token, q1: nat) {
    pos < q1 < |toks| && toks[pos] == kw && ExpressionAt(toks, pos + 1) == Ok(Parsed(c, q1)) && toks[q1] == sep
  }

  /** A block read from `p` as `b` up to `q`, where `close` stands. */
  predicate BlockRead(toks: seq<Token>, p: nat, kinds: set<TokenType>, b: Node, q: nat, close: Token) {
    p <= q < |toks| && BlockTail(toks, p, kinds, []) == Ok(Parsed(b, q)) && toks[q] == close
  }

  /** The condition and the block of a framed statement are read back. */
  lemma {:induction false} FramedReadsUnparse(toks: seq<Token>, pos: nat, kw: Token, c: Node, sep: Token, b: Node,
                                              kinds: set<TokenType>, close: Token, q1: nat, q2: nat)
    requires WellFormed(c) && WellFormedBlock(b) && sep.kind !in BinaryKinds
    requires kinds <= {ELSE, END} && close.kind in kinds
    requires FramedAt(toks, pos, kw, Unparse(c), sep, UnparseBlockFrom(b, 0), close, q1, q2)
    ensures ConditionRead(toks, pos, kw, c, sep, q1) && BlockRead(toks, q1 + 1, kinds, b, q2, close)
    decreases b, 3 * |b.stmts| + 4
  {
    ExpressionReadsUnparseAt(toks, pos + 1, c, sep, q1);
    BlockReadsWhole(toks, q1 + 1, b, kinds, q2);
  }

  /** `_while_statement` once its condition and body are known to be read. */
  lemma WhileAssembled(toks: seq<Token>, pos: nat, c: Node, q1: nat, body: Node, q2: nat)
    requires ConditionRead(toks, pos, WhileToken, c, DoToken, q1) && BlockRead(toks, q1 + 1, {END}, body, q2, EndToken)
    ensures StatementAt(toks, pos) == Ok(Parsed(While(c, body), q2 + 1))
  {
    assert WhileStatementAt(toks, pos) == Ok(Parsed(While(c, body), q2 + 1));
  }

  lemma {:induction false} WhileReadsUnparse(toks: seq<Token>, pos: nat, c: Node, body: Node, q: nat)
    requires WellFormedStatement(While(c, body)) && At(toks, pos, UnparseStatement(While(c, body)))
    requires q == pos + |UnparseStatement(While(c, body))|
    ensures StatementAt(toks, pos) == Ok(Parsed(While(c, body), q))
    decreases While(c, body), 2
  {
    var uc, ub := Unparse(c), UnparseBlockFrom(body, 0);
    var q1 := pos + 1 + |uc|;
    var q2 := q1 + 1 + |ub|;
    AtFramed(toks, pos, WhileToken, uc, DoToken, ub, EndToken, q1, q2);
    FramedReadsUnparse(toks, pos, WhileToken, c, DoToken, body, {END}, EndToken, q1, q2);
    WhileAssembled(toks, pos, c, q1, body, q2);
  }

  /** `_if_statement` once its condition and then block are known to be read and `end` follows. */
  lemma IfAssembled(toks: seq<Token>, pos: nat, c: Node, q1: nat, t: Node, q2: nat)
    requires ConditionRead(toks, pos, IfToken, c, ThenToken, q1) && BlockRead(toks, q1 + 1, {ELSE, END}, t, q2, EndToken)
    ensures StatementAt(toks, pos) == Ok(Parsed(If(c, t, None), q2 + 1))
  {
    assert IfStatementAt(toks, pos) == Ok(Parsed(If(c, t, None), q2 + 1));
  }

  /** `_if_statement` once its condition and both blocks are known to be read. */
  lemma IfElseAssembled(toks: seq<Token>, pos: nat, c: Node, q1: nat, t: Node, q2: nat, e: Node, q3: nat)
    requires ConditionRead(toks, pos, IfToken, c, ThenToken, q1) && BlockRead(toks, q1 + 1, {ELSE, END}, t, q2, ElseToken)
    requires BlockRead(toks, q2 + 1, {END}, e, q3, EndToken)
    ensures StatementAt(toks, pos) == Ok(Parsed(If(c, t, Some(e)), q3 + 1))
  {
    assert IfStatementAt(toks, pos) == Ok(Parsed(If(c, t, Some(e)), q3 + 1));
  }

  lemma {:induction false} IfReadsUnparse(toks: seq<Token>, pos: nat, c: Node, t: Node, q: nat)
    requires WellFormedStatement(If(c, t, None)) && At(toks, pos, UnparseStatement(If(c, t, None)))
    requires q == pos + |UnparseStatement(If(c, t, None))|
    ensures StatementAt(toks, pos) == Ok(Parsed(If(c, t, None), q))
    decreases If(c, t, None), 2
  {
    var uc, ut := Unparse(c), UnparseBlockFrom(t, 0);
    var q1 := pos + 1 + |uc|;
    var q2 := q1 + 1 + |ut|;
    AtFramed(toks, pos, IfToken, uc, ThenToken, ut, EndToken, q1, q2);
    FramedReadsUnparse(toks, pos, IfToken, c, ThenToken, t, {ELSE, END}, EndToken, q1, q2);
    IfAssembled(toks, pos, c, q1, t, q2);
  }

  lemma {:induction false} IfElseReadsUnparse(toks: seq<Token>, pos: nat, c: Node, t: Node, e: Node, q: nat)
    requires WellFormedStatement(If(c, t, Some(e))) && At(toks, pos, UnparseStatement(If(c, t, Some(e))))
    requires q == pos + |UnparseStatement(If(c, t, Some(e)))|
    ensures StatementAt(toks, pos) == Ok(Parsed(If(c, t, Some(e)), q))
    decreases If(c, t, Some(e)), 2
  {
    var uc, ut, ue := Unparse(c), UnparseBlockFrom(t, 0), UnparseBlockFrom(e, 0);
    var q1 := pos + 1 + |uc|;
    var q2 := q1 + 1 + |ut|;
    var q3 := q2 + 1 + |ue|;
    AtIfElse(toks, pos, uc, ut, ue, q1, q2, q3);
    IfElseBlocksRead(toks, pos, c, t, e, q1, q2, q3);
    IfElseAssembled(toks, pos, c, q1, t, q2, e, q3);
  }

  /** The condition and both blocks of an if-else statement are read back. */
  lemma {:induction false} IfElseBlocksRead(toks: seq<Token>, pos: nat, c: Node, t: Node, e: Node, q1: nat, q2: nat, q3: nat)
    requires WellFormed(c) && WellFormedBlock(t) && WellFormedBlock(e)
    requires FramedAt(toks, pos, IfToken, Unparse(c), ThenToken, UnparseBlockFrom(t, 0), ElseToken, q1, q2)
    requires At(toks, q2 + 1, UnparseBlockFrom(e, 0)) && q3 == q2 + 1 + |UnparseBlockFrom(e, 0)|
    requires q3 < |toks| && toks[q3] == EndToken
    ensures ConditionRead(toks, pos, IfToken, c, ThenToken, q1) && BlockRead(toks, q1 + 1, {ELSE, END}, t, q2, ElseToken)
    ensures BlockRead(toks, q2 + 1, {END}, e, q3, EndToken)
    decreases If(c, t, Some(e)), 1
  {
    FramedReadsUnparse(toks, pos, IfToken, c, ThenToken, t, {ELSE, END}, ElseToken, q1, q2);
    BlockReadsWhole(toks, q2 + 1, e, {END}, q3);
  }

  /** `_block_statement_until(kinds)` reads the tokens of a block, spelled from `pos` to `q`,
      where a terminator follows. */
  lemma {:induction false} BlockReadsWhole(toks: seq<Token>, pos: nat, b: Node, kinds: set<TokenType>, q: nat)
    requires WellFormedBlock(b) && kinds <= {ELSE, END}
    requires At(toks, pos, UnparseBlockFrom(b, 0)) && q == pos + |UnparseBlockFrom(b, 0)| && CheckAt(toks, q, kinds)
    ensures BlockTail(toks, pos, kinds, []) == Ok(Parsed(b, q))
    decreases b, 3 * |b.stmts| + 3
  {
    assert b.stmts[..0] == [];
    BlockReadsUnparse(toks, pos, b, 0, kinds, q);
  }

  /** The tokens of the statements of `b` from the `i`-th on, followed by a terminator, are read
      by the loop of `_block_statement_until`, which then holds all of `b`'s statements. */
  lemma {:induction false} BlockReadsUnparse(toks: seq<Token>, pos: nat, b: Node, i: nat, kinds: set<TokenType>, q: nat)
    requires WellFormedBlock(b) && i <= |b.stmts| && kinds <= {ELSE, END}
    requires At(toks, pos, UnparseBlockFrom(b, i)) && q == pos + |UnparseBlockFrom(b, i)| && CheckAt(toks, q, kinds)
    ensures BlockTail(toks, pos, kinds, b.stmts[..i]) == Ok(Parsed(b, q))
    decreases b, 3 * (|b.stmts| - i) + 2
  {
    if i == |b.stmts| {
      assert b.stmts[..i] == b.stmts;
    } else {
      var us, rest := UnparseStatement(b.stmts[i]), UnparseBlockFrom(b, i + 1);
      assert UnparseBlockFrom(b, i) == us + rest;
      AtConcat(toks, pos, us, rest);
      BlockReadsStep(toks, pos, b, i, kinds, pos + |us|, q);
    }
  }

  /** One turn of the `_block_statement_until` loop over the tokens of the `i`-th statement,
      which end at `m`. */
  lemma {:induction false} BlockReadsStep(toks: seq<Token>, pos: nat, b: Node, i: nat, kinds: set<TokenType>, m: nat, q: nat)
    requires WellFormedBlock(b) && i < |b.stmts| && kinds <= {ELSE, END}
    requires At(toks, pos, UnparseStatement(b.stmts[i])) && m == pos + |UnparseStatement(b.stmts[i])|
    requires At(toks, m, UnparseBlockFrom(b, i + 1)) && q == m + |UnparseBlockFrom(b, i + 1)| && CheckAt(toks, q, kinds)
    ensures BlockTail(toks, pos, kinds, b.stmts[..i]) == Ok(Parsed(b, q))
    decreases b, 3 * (|b.stmts| - i) + 1
  {
    var s := b.stmts[i];
    StatementReadsUnparse(toks, pos, s, m);
    StatementStart(s);
    assert toks[pos] == UnparseStatement(s)[0];
    BlockReadsRest(toks, pos, b, i, kinds, m, q);
  }

  /** The rest of the loop once the `i`-th statement is read up to `m`. */
  lemma {:induction false} BlockReadsRest(toks: seq<Token>, pos: nat, b: Node, i: nat, kinds: set<TokenType>, m: nat, q: nat)
    requires WellFormedBlock(b) && i < |b.stmts| && kinds <= {ELSE, END}
    requires pos < m <= |toks| && toks[pos].kind !in kinds && StatementAt(toks, pos) == Ok(Parsed(b.stmts[i], m))
    requires At(toks, m, UnparseBlockFrom(b, i + 1)) && q == m + |UnparseBlockFrom(b, i + 1)| && CheckAt(toks, q, kinds)
    ensures BlockTail(toks, pos, kinds, b.stmts[..i]) == Ok(Parsed(b, q))
    decreases b, 3 * (|b.stmts| - i)
  {
    BlockReadsUnparse(toks, m, b, i + 1, kinds, q);
    assert b.stmts[..i] + [b.stmts[i]] == b.stmts[..i + 1];
    BlockTailStep(toks, pos, kinds, b.stmts[..i], b.stmts[i], m);
  }

  /** A statement that is not a terminator is read and the loop goes on after it. */
  lemma BlockTailStep(toks: seq<Token>, pos: nat, kinds: set<TokenType>, done: seq<Node>, s: Node, q: nat)
    requires pos < |toks| && toks[pos].kind !in kinds && StatementAt(toks, pos) == Ok(Parsed(s, q))
    ensures BlockTail(toks, pos, kinds, done) == BlockTail(toks, q, kinds, done + [s])
  {
  }

  /** The `_program` loop over the tokens of the statements of `b` from the `i`-th on. */
  lemma {:induction false} ProgramReadsUnparseFrom(toks: seq<Token>, pos: nat, b: Node, i: nat)
    requires WellFormedBlock(b) && i <= |b.stmts|
    requires At(toks, pos, UnparseBlockFrom(b, i)) && pos + |UnparseBlockFrom(b, i)| == |toks|
    ensures ProgramTail(toks, pos, b.stmts[..i]) == Ok(Parsed(b, |toks|))
    decreases |b.stmts| - i, 1
  {
    if i == |b.stmts| {
      assert b.stmts[..i] == b.stmts;
    } else {
      var us, rest := UnparseStatement(b.stmts[i]), UnparseBlockFrom(b, i + 1);
      assert UnparseBlockFrom(b, i) == us + rest;
      AtConcat(toks, pos, us, rest);
      ProgramReadsStep(toks, pos, b, i, pos + |us|);
    }
  }

  /** One turn of the `_program` loop over the tokens of the `i`-th statement, which end at `m`. */
  lemma {:induction false} ProgramReadsStep(toks: seq<Token>, pos: nat, b: Node, i: nat, m: nat)
    requires WellFormedBlock(b) && i < |b.stmts|
    requires At(toks, pos, UnparseStatement(b.stmts[i])) && m == pos + |UnparseStatement(b.stmts[i])|
    requires At(toks, m, UnparseBlockFrom(b, i + 1)) && m + |UnparseBlockFrom(b, i + 1)| == |toks|
    ensures ProgramTail(toks, pos, b.stmts[..i]) == Ok(Parsed(b, |toks|))
    decreases |b.stmts| - i, 0
  {
    StatementReadsUnparse(toks, pos, b.stmts[i], m);
    ProgramReadsUnparseFrom(toks, m, b, i + 1);
    assert b.stmts[..i] + [b.stmts[i]] == b.stmts[..i + 1];
  }

  /** Round trip for whole programs: `parse()` reads the tokens of a block of well-formed
      statements back as that block. */
  lemma ProgramReadsUnparse(b: Node)
    requires WellFormedBlock(b)
    ensures Program(UnparseBlockFrom(b, 0)) == Ok(Parsed(b, |UnparseBlockFrom(b, 0)|))
  {
    var u := UnparseBlockFrom(b, 0);
    assert u[0..|u|] == u;
    assert b.stmts[..0] == [];
    ProgramReadsUnparseFrom(u, 0, b, 0);
  }
}
