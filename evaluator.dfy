/** The tree-walking evaluator of the Python interpreter (blast/interpreter.py). `Eval` gives the
    value of a node together with the variable table after it; the `Interpreter` class runs the
    visitor methods against its `SymbolTable` and is proved to agree with `Eval`. */
module Interpreting {
  import opened Wrappers
  import opened Text
  import opened Tokens
  import opened Ast
  import opened SymbolTables
  import Parsing

  /** Run-time values: Python ints, floats (kept as exact reals: no rounding is modelled), strs
      and None. */
  datatype Value = IntV(i: int) | RealV(r: real) | StrV(s: string) | NoneV

  /** What evaluation raises. */
  datatype RuntimeError =
    | NoInput                               // `evaluate` with no argument
    | InitFailed(init: Parsing.InitError)   // `Parser(source=...)` could not scan the source
    | ParseFailed(failure: Parsing.Failure) // `parse()` raised
    | InvalidAssignmentTarget               // `:` with something other than a variable on its left
    | UndefinedVariable(name: string)       // a variable read before any assignment
    | ZeroDivision                          // Python's ZeroDivisionError
    | TypeMismatch                          // Python's TypeError for operands an operator refuses
    | Unsupported                           // str formatting with `%`, and powers with a fractional exponent
    | MissingVisitor(visitor: string)       // AttributeError: the interpreter has no such visitor method

  function Message(e: RuntimeError): string {
    match e
    case NoInput => "No source code, parser, or AST provided."
    case InvalidAssignmentTarget => "Invalid assignment target"
    case UndefinedVariable(name) => "Undefined variable '" + name + "'"
    case MissingVisitor(v) => "'Interpreter' object has no attribute '" + v + "'"
    case _ => "error raised by the parser or by Python's arithmetic"
  }

  /** A result and the variable table once it has been computed. Python keeps every binding made
      before an exception, so the table is there on errors too. */
  datatype Evaluation = Evaluation(result: Result<Value, RuntimeError>, env: map<string, Value>)

  predicate IsNumber(v: Value) { v.IntV? || v.RealV? }

  function AsReal(v: Value): real
    requires IsNumber(v)
  {
    if v.IntV? then v.i as real else v.r
  }

  predicate IsZero(v: Value) { IsNumber(v) && AsReal(v) == 0.0 }

  /** The value a NumberExprAST holds: its int, or its float `whole.frac`. */
  function NumberValueOf(v: NumberValue): Value {
    match v
    case IntNumber(i) => IntV(i)
    case FloatNumber(whole, frac) =>
      // the parser only builds fractions of digits
      RealV(whole as real + (if AllDigits(frac) then DigitsValue(frac) else 0) as real / Pow10(|frac|) as real)
  }

  /** Python's `a % b` on ints: the remainder takes the sign of the divisor. */
  function FloorMod(a: int, b: int): int
    requires b != 0
  {
    var m := a % b;
    if b < 0 && m != 0 then m + b else m
  }

  /** Python's `a // b` on ints: the quotient rounded down. */
  function FloorDiv(a: int, b: int): int
    requires b != 0
  {
    if b < 0 && a % b != 0 then a / b - 1 else a / b
  }

  /** `%` on ints is Python's: the remainder of the quotient rounded down, with the divisor's
      sign and smaller than the divisor in size. */
  lemma FloorModIsPythonRemainder(a: int, b: int)
    requires b != 0
    ensures a == b * FloorDiv(a, b) + FloorMod(a, b)
    ensures b > 0 ==> 0 <= FloorMod(a, b) < b
    ensures b < 0 ==> b < FloorMod(a, b) <= 0
  {
  }

  /** Python's `%` on floats, with the same rule. */
  function RealFloorMod(x: real, y: real): real
    requires y != 0.0
  {
    x - y * (x / y).Floor as real
  }

  /** `a ** n` for a natural exponent. */
  function Power(a: int, n: nat): int {
    if n == 0 then 1 else a * Power(a, n - 1)
  }

  function RealPower(x: real, n: nat): real {
    if n == 0 then 1.0 else x * RealPower(x, n - 1)
  }

  /** Powers multiply when their exponents add. */
  lemma {:induction false} PowerAdds(a: int, m: nat, n: nat)
    ensures Power(a, m + n) == Power(a, m) * Power(a, n)
  {
    if m > 0 {
      PowerAdds(a, m - 1, n);
      assert Power(a, m + n) == a * Power(a, m - 1 + n);
    }
  }

  lemma {:induction false} PowerOfNonZero(a: int, n: nat)
    requires a != 0
    ensures Power(a, n) != 0
  {
    if n > 0 {
      PowerOfNonZero(a, n - 1);
    }
  }

  lemma {:induction false} RealPowerOfNonZero(x: real, n: nat)
    requires x != 0.0
    ensures RealPower(x, n) != 0.0
  {
    if n > 0 {
      RealPowerOfNonZero(x, n - 1);
    }
  }

  /** `s * n`: `n` copies of `s`, none when `n` is not positive. */
  function Repeat(s: string, n: int): (r: string)
    decreases n
  {
    if n <= 0 then [] else s + Repeat(s, n - 1)
  }

  lemma {:induction false} RepeatLength(s: string, n: int)
    ensures |Repeat(s, n)| == if n <= 0 then 0 else |s| * n
  {
    if n > 0 {
      RepeatLength(s, n - 1);
    }
  }

  predicate IsIntegral(x: real) { x == x.Floor as real }

  /** `x ** y` for numbers: an int when both are ints and the exponent is not negative, a float
      otherwise; a zero base with a negative exponent raises. */
  function NumberPower(x: Value, y: Value): Result<Value, RuntimeError>
    requires IsNumber(x) && IsNumber(y)
  {
    if !IsIntegral(AsReal(y)) then Err(Unsupported)
    else
      var n := AsReal(y).Floor;
      if x.IntV? && y.IntV? && n >= 0 then Ok(IntV(Power(x.i, n)))
      else if n >= 0 then Ok(RealV(RealPower(AsReal(x), n)))
      else if AsReal(x) == 0.0 then Err(ZeroDivision)
      else
        RealPowerOfNonZero(AsReal(x), -n);
        Ok(RealV(1.0 / RealPower(AsReal(x), -n)))
  }

  const ArithmeticKinds: set<TokenType> := {PLUS, MINUS, MUL, DIV, MOD, EXP}

  /** The `match` of `visit_binary_expr` on two evaluated operands. Numbers follow Python's
      arithmetic (ints stay ints except under `/`); `+` joins strs and `*` repeats a str;
      every other operator gives None. */
  function Arithmetic(kind: TokenType, l: Value, r: Value): (res: Result<Value, RuntimeError>)
    ensures kind !in ArithmeticKinds ==> res == Ok(NoneV)
    ensures kind in ArithmeticKinds && (l.NoneV? || r.NoneV?) && !(kind == MOD && l.StrV?) ==> res == Err(TypeMismatch)
    ensures kind in {DIV, MOD} && IsNumber(l) && IsZero(r) ==> res == Err(ZeroDivision)
    ensures kind in {PLUS, MINUS, MUL} && l.IntV? && r.IntV? ==> res.Ok? && res.value.IntV?
    ensures kind in {MINUS, DIV} && res.Ok? ==> IsNumber(l) && IsNumber(r)
    ensures kind == DIV && res.Ok? && IsNumber(l) && IsNumber(r) ==>
      res.value.RealV? && res.value.r * AsReal(r) == AsReal(l)
  {
    if kind !in ArithmeticKinds then Ok(NoneV)
    else if kind == MOD && l.StrV? then Err(Unsupported)
    else if kind == PLUS && l.StrV? && r.StrV? then Ok(StrV(l.s + r.s))
    else if kind == MUL && l.StrV? && r.IntV? then Ok(StrV(Repeat(l.s, r.i)))
    else if kind == MUL && l.IntV? && r.StrV? then Ok(StrV(Repeat(r.s, l.i)))
    else if !IsNumber(l) || !IsNumber(r) then Err(TypeMismatch)
    else if kind == DIV then
      if IsZero(r) then Err(ZeroDivision) else Ok(RealV(AsReal(l) / AsReal(r)))
    else if kind == MOD then
      if IsZero(r) then Err(ZeroDivision)
      else if l.IntV? && r.IntV? then Ok(IntV(FloorMod(l.i, r.i)))
      else Ok(RealV(RealFloorMod(AsReal(l), AsReal(r))))
    else if kind == EXP then NumberPower(l, r)
    else if l.IntV? && r.IntV? then
      Ok(IntV(if kind == PLUS then l.i + r.i else if kind == MINUS then l.i - r.i else l.i * r.i))
    else
      var x, y := AsReal(l), AsReal(r);
      Ok(RealV(if kind == PLUS then x + y else if kind == MINUS then x - y else x * y))
  }

  /** `%` on two ints gives Python's remainder: the divisor's sign, the quotient rounded down. */
  lemma IntRemainder(a: int, b: int)
    requires b != 0
    ensures Arithmetic(MOD, IntV(a), IntV(b)).Ok?
    ensures var m := Arithmetic(MOD, IntV(a), IntV(b)).value;
      m.IntV? && a == b * FloorDiv(a, b) + m.i && (b > 0 ==> 0 <= m.i < b) && (b < 0 ==> b < m.i <= 0)
  {
    FloorModIsPythonRemainder(a, b);
  }

  /** `**` on ints: an int for an exponent that is not negative; for a negative exponent of a
      non-zero base, the float whose product with the opposite power is one. */
  lemma IntPower(a: int, n: int)
    ensures n >= 0 ==> Arithmetic(EXP, IntV(a), IntV(n)) == Ok(IntV(Power(a, n)))
    ensures n < 0 && a == 0 ==> Arithmetic(EXP, IntV(a), IntV(n)) == Err(ZeroDivision)
    ensures n < 0 && a != 0 ==>
      var p := Arithmetic(EXP, IntV(a), IntV(n));
      p.Ok? && p.value.RealV? && p.value.r * Power(a, -n) as real == 1.0
  {
    assert IsIntegral(n as real);
    if n < 0 && a != 0 {
      PowerOfNonZero(a, -n);
      IntRealPower(a, -n);
    }
  }

  lemma {:induction false} IntRealPower(a: int, n: nat)
    ensures RealPower(a as real, n) == Power(a, n) as real
  {
    if n > 0 {
      IntRealPower(a, n - 1);
    }
  }

  /** `-v` for a number; Python raises TypeError for anything else. */
  function Negate(v: Value): (r: Result<Value, RuntimeError>)
    ensures r.Ok? <==> IsNumber(v)
    ensures r.Ok? ==> IsNumber(r.value) && AsReal(r.value) == -AsReal(v) && r.value.IntV? == v.IntV?
  {
    match v
    case IntV(i) => Ok(IntV(-i))
    case RealV(x) => Ok(RealV(-x))
    case _ => Err(TypeMismatch)
  }

  /** Negation undoes itself. */
  lemma NegateTwice(v: Value)
    requires IsNumber(v)
    ensures Negate(Negate(v).value) == Ok(v)
  {
  }

  /** `accept` on a node with the interpreter as visitor, with table `env`: the binary visitor
      evaluates the right operand first, binds for `:` and otherwise evaluates the left operand;
      the unary visitor negates only for `-`; a variable is looked up; an expression statement
      gives its expression's value; blocks, ifs and whiles have no visitor method. */
  function Eval(n: Node, env: map<string, Value>): Evaluation
    decreases n
  {
    match n
    case Binary(op, lhs, rhs) =>
      var r := Eval(rhs, env);
      if r.result.Err? then r
      else if op.kind == COLON then
        if !lhs.Variable? then Evaluation(Err(InvalidAssignmentTarget), r.env)
        else Evaluation(Ok(NoneV), r.env[lhs.name := r.result.value])
      else
        var l := Eval(lhs, r.env);
        if l.result.Err? then l
        else Evaluation(Arithmetic(op.kind, l.result.value, r.result.value), l.env)
    case Unary(op, e) =>
      var o := Eval(e, env);
      if o.result.Err? || op.kind != MINUS then o
      else Evaluation(Negate(o.result.value), o.env)
    case Number(v) => Evaluation(Ok(NumberValueOf(v)), env)
    case Str(s) => Evaluation(Ok(StrV(s)), env)
    case Variable(name) =>
      Evaluation(if name in env then Ok(env[name]) else Err(UndefinedVariable(name)), env)
    case ExprStmt(e) => Eval(e, env)
    case _ => Evaluation(Err(MissingVisitor(VisitorMethod(n))), env)
  }

  /** Evaluation never unbinds a name: the table only grows. */
  lemma {:induction false} EvalKeepsBindings(n: Node, env: map<string, Value>)
    ensures env.Keys <= Eval(n, env).env.Keys
    decreases n
  {
    match n
    case Binary(op, lhs, rhs) =>
      EvalKeepsBindings(rhs, env);
      if Eval(rhs, env).result.Ok? && op.kind != COLON {
        EvalKeepsBindings(lhs, Eval(rhs, env).env);
      }
    case Unary(_, e) => EvalKeepsBindings(e, env);
    case ExprStmt(e) => EvalKeepsBindings(e, env);
    case _ =>
  }

  /** Whether a node contains an assignment. */
  predicate HasAssignment(n: Node)
    decreases n
  {
    match n
    case Binary(op, lhs, rhs) => op.kind == COLON || HasAssignment(lhs) || HasAssignment(rhs)
    case Unary(_, e) => HasAssignment(e)
    case ExprStmt(e) => HasAssignment(e)
    case _ => false
  }

  /** Only assignments write the table: evaluating a node without one leaves it as it was. */
  lemma {:induction false} NoAssignmentKeepsTable(n: Node, env: map<string, Value>)
    requires !HasAssignment(n)
    ensures Eval(n, env).env == env
    decreases n
  {
    match n
    case Binary(op, lhs, rhs) =>
      NoAssignmentKeepsTable(rhs, env);
      if Eval(rhs, env).result.Ok? {
        NoAssignmentKeepsTable(lhs, env);
      }
    case Unary(_, e) => NoAssignmentKeepsTable(e, env);
    case ExprStmt(e) => NoAssignmentKeepsTable(e, env);
    case _ =>
  }

  /** The right operand is evaluated first: when it raises, that error is the result, whatever
      the operator and the left operand (even a left operand `:` cannot assign to). */
  lemma RightOperandFirst(op: Token, lhs: Node, rhs: Node, env: map<string, Value>)
    requires Eval(rhs, env).result.Err?
    ensures Eval(Binary(op, lhs, rhs), env) == Eval(rhs, env)
  {
  }

  /** `x : e` binds `x` to the value of `e` and gives None; reading `x` afterwards gives that
      value back, and every other binding is the one `e` left. */
  lemma AssignmentThenRead(op: Token, x: string, rhs: Node, env: map<string, Value>, other: string)
    requires op.kind == COLON && Eval(rhs, env).result.Ok?
    requires other != x
    ensures var o := Eval(Binary(op, Variable(x), rhs), env);
      o.result == Ok(NoneV) &&
      Eval(Variable(x), o.env).result == Ok(Eval(rhs, env).result.value) &&
      Lookup(o.env, other) == Lookup(Eval(rhs, env).env, other)
  {
    var r := Eval(rhs, env);
    var bound := r.env[x := r.result.value];
    assert Eval(Binary(op, Variable(x), rhs), env) == Evaluation(Ok(NoneV), bound);
    GetAfterSet(r.env, x, r.result.value);
    BoundNameReads(x, bound);
    SetLeavesOthers(r.env, x, r.result.value, other);
  }

  /** A bound name reads as its value and leaves the table alone. */
  lemma BoundNameReads(name: string, env: map<string, Value>)
    requires name in env
    ensures Eval(Variable(name), env) == Evaluation(Ok(env[name]), env)
  {
  }

  /** `:` with anything but a variable on its left raises, once the right operand is evaluated. */
  lemma AssignmentNeedsVariable(op: Token, lhs: Node, rhs: Node, env: map<string, Value>)
    requires op.kind == COLON && !lhs.Variable? && Eval(rhs, env).result.Ok?
    ensures Eval(Binary(op, lhs, rhs), env) == Evaluation(Err(InvalidAssignmentTarget), Eval(rhs, env).env)
  {
  }

  /** A name that was never bound raises "Undefined variable". */
  lemma UnboundNameRaises(name: string, env: map<string, Value>)
    requires Lookup(env, name).None?
    ensures Eval(Variable(name), env) == Evaluation(Err(UndefinedVariable(name)), env)
  {
  }

  /** The tree `evaluate` runs: the tree when one is given; otherwise the parse of the tokens
      when they are given; otherwise the parse of the scanned source. */
  function TreeToRun(source: Option<string>, tokens: Option<seq<Token>>, ast: Option<Node>): Result<Node, RuntimeError> {
    if ast.Some? then Ok(ast.value)
    else if tokens.Some? then ParseResult(Parsing.Program(tokens.value))
    else if source.Some? then
      match Parsing.InitialTokens(source, None)
      case Err(e) => Err(InitFailed(e))
      case Ok(ts) => ParseResult(Parsing.Program(ts))
    else Err(NoInput)
  }

  function ParseResult(o: Parsing.Outcome): Result<Node, RuntimeError> {
    match o
    case Ok(p) => Ok(p.node)
    case Err(f) => Err(ParseFailed(f))
  }

  /** `evaluate(source, tokens, ast)` with table `env`. */
  function Run(source: Option<string>, tokens: Option<seq<Token>>, ast: Option<Node>, env: map<string, Value>): Evaluation {
    match TreeToRun(source, tokens, ast)
    case Err(e) => Evaluation(Err(e), env)
    case Ok(tree) => Eval(tree, env)
  }

  /** `parse()` always gives a block, and there is no `visit_block_stmt`: evaluating tokens that
      parse fails with that missing method, and leaves the table alone. */
  lemma ParsedProgramHasNoVisitor(tokens: seq<Token>, env: map<string, Value>)
    requires Parsing.Program(tokens).Ok?
    ensures Run(None, Some(tokens), None, env) == Evaluation(Err(MissingVisitor("visit_block_stmt")), env)
  {
    var tree := Parsing.Program(tokens).value.node;
    assert VisitorMethod(tree) == "visit_" + "block" + "_stmt" == "visit_block_stmt";
  }

  /** So `evaluate(source=...)` never gives a value: the scan, the parse or the block visitor
      raises. */
  lemma SourceNeverEvaluates(source: string, env: map<string, Value>)
    ensures Run(Some(source), None, None, env).result.Err?
    ensures Run(Some(source), None, None, env).env == env
  {
  }

  /** The interpreter object: its variable table and the last tree it was given. */
  class Interpreter {
    const symtab: SymbolTable<Value>
    var ast: Option<Node>

    /** `__init__`: a fresh, empty table. */
    constructor ()
      ensures fresh(symtab) && symtab.symbols == map[] && ast == None
    {
      symtab := new SymbolTable();
      ast := None;
    }

    /** `evaluate`: settles on a tree, stores it in `_ast` and runs it. */
    method Evaluate(source: Option<string>, tokens: Option<seq<Token>>, tree: Option<Node>)
      returns (r: Result<Value, RuntimeError>)
      modifies this, symtab
      ensures Evaluation(r, symtab.symbols) == Run(source, tokens, tree, old(symtab.symbols))
      ensures ast == if TreeToRun(source, tokens, tree).Ok? then Some(TreeToRun(source, tokens, tree).value) else old(ast)
    {
      var chosen: Result<Node, RuntimeError>;
      if tree.Some? {
        chosen := Ok(tree.value);
      } else if tokens.Some? {
        chosen := ParseWith(None, tokens);
      } else if source.Some? {
        chosen := ParseWith(source, None);
      } else {
        chosen := Err(NoInput);
      }
      if chosen.Err? {
        return Err(chosen.error);
      }
      ast := Some(chosen.value);
      r := Accept(chosen.value);
    }

    /** `Parser(source=..., tokens=...).parse()`. */
    static method ParseWith(source: Option<string>, tokens: Option<seq<Token>>) returns (r: Result<Node, RuntimeError>)
      requires source.Some? || tokens.Some?
      ensures r == match Parsing.InitialTokens(source, tokens)
        case Err(e) => Err(InitFailed(e))
        case Ok(ts) => ParseResult(Parsing.Program(ts))
    {
      var p := Parsing.Parser.New(source, tokens);
      if p.Err? {
        return Err(InitFailed(p.error));
      }
      var parsed := p.value.Parse();
      r := ParseResult(parsed);
    }

    /** `node.accept(self)`: the visitor method for the node's kind. */
    method Accept(n: Node) returns (r: Result<Value, RuntimeError>)
      modifies symtab
      ensures Evaluation(r, symtab.symbols) == Eval(n, old(symtab.symbols))
      decreases n, 1
    {
      match n
      case Binary(_, _, _) => r := VisitBinary(n);
      case Unary(_, _) => r := VisitUnary(n);
      case Number(_) => r := VisitNumber(n);
      case Str(_) => r := VisitString(n);
      case Variable(_) => r := VisitVariable(n);
      case ExprStmt(_) => r := VisitExprStmt(n);
      case _ => r := Err(MissingVisitor(VisitorMethod(n)));
    }

    /** `visit_binary_expr`. */
    method VisitBinary(n: Node) returns (r: Result<Value, RuntimeError>)
      requires n.Binary?
      modifies symtab
      ensures Evaluation(r, symtab.symbols) == Eval(n, old(symtab.symbols))
      decreases n, 0
    {
      var rhs := Accept(n.rhs);
      if rhs.Err? {
        return rhs;
      }
      if n.op.kind == COLON {
        if !n.lhs.Variable? {
          return Err(InvalidAssignmentTarget);
        }
        symtab.Set(n.lhs.name, rhs.value);
        return Ok(NoneV);
      }
      var lhs := Accept(n.lhs);
      if lhs.Err? {
        return lhs;
      }
      r := Arithmetic(n.op.kind, lhs.value, rhs.value);
    }

    /** `visit_unary_expr`. */
    method VisitUnary(n: Node) returns (r: Result<Value, RuntimeError>)
      requires n.Unary?
      modifies symtab
      ensures Evaluation(r, symtab.symbols) == Eval(n, old(symtab.symbols))
      decreases n, 0
    {
      r := Accept(n.expr);
      if r.Ok? && n.op.kind == MINUS {
        r := Negate(r.value);
      }
    }

    /** `visit_number_expr`: the stored number. */
    method VisitNumber(n: Node) returns (r: Result<Value, RuntimeError>)
      requires n.Number?
      ensures r == Ok(NumberValueOf(n.num))
      ensures n.num.IntNumber? ==> r == Ok(IntV(n.num.i))
    {
      r := Ok(NumberValueOf(n.num));
    }

    /** `visit_string_expr`: the stored text. */
    method VisitString(n: Node) returns (r: Result<Value, RuntimeError>)
      requires n.Str?
      ensures r == Ok(StrV(n.text))
    {
      r := Ok(StrV(n.text));
    }

    /** `visit_variable_expr`: the bound value, or "Undefined variable" where the table raises
        KeyError. */
    method VisitVariable(n: Node) returns (r: Result<Value, RuntimeError>)
      requires n.Variable?
      ensures r.Ok? <==> n.name in symtab.symbols
      ensures r.Ok? ==> r.value == symtab.symbols[n.name]
      ensures r.Err? ==> r.error == UndefinedVariable(n.name)
    {
      var found := symtab.Get(n.name);
      if found.None? {
        return Err(UndefinedVariable(n.name));
      }
      return Ok(found.value);
    }

    /** `visit_expr_stmt`: the expression's value. */
    method VisitExprStmt(n: Node) returns (r: Result<Value, RuntimeError>)
      requires n.ExprStmt?
      modifies symtab
      ensures Evaluation(r, symtab.symbols) == Eval(n, old(symtab.symbols))
      decreases n, 0
    {
      r := Accept(n.expr);
    }
  }
}
