/** The recursive-descent parser of the C port (src/parser.c). Each parse routine is given as a
    function of the token list and a cursor position; the `CParser` class below runs the same
    descent by moving its cursor `i` and is proved to agree with them.

    The C routines report no errors: `consume` returns NULL without moving when the token does
    not match and the callers mostly ignore that, and `expr_primary` returns no node when it
    finds no expression. Two things do go wrong, and the outcome of a parse says which: a loop
    whose body reads no token runs forever (`Diverges`), and a routine parameter that is not an
    identifier is dereferenced as NULL (`Faults`). */
module CParsing {
  import opened Wrappers
  import opened Tokens
  import opened CAst

  /** How a parse routine ends: it returns a value with the cursor at `next`, or it never
      returns because a loop at cursor `at` makes no progress, or it dereferences NULL with the
      cursor at `at`. */
  datatype Step<T> = Done(value: T, next: nat) | Diverges(at: nat) | Faults(at: nat)

  /** Where the cursor is when the routine returns, spins or crashes. */
  function Cursor<T>(r: Step<T>): nat {
    if r.Done? then r.next else r.at
  }

  /** A parse from `pos` never moves the cursor back and never past the end of the tokens. */
  predicate Within<T>(toks: seq<Token>, pos: nat, r: Step<T>) {
    pos <= Cursor(r) <= |toks|
  }

  /** An outcome that is not a value, passed on to a routine that returns another kind of value. */
  function Propagate<A, B>(r: Step<A>): (s: Step<B>)
    requires !r.Done?
    ensures !s.Done? && s.Diverges? == r.Diverges? && Cursor(s) == Cursor(r)
  {
    if r.Diverges? then Diverges(r.at) else Faults(r.at)
  }

  /** `check(parser, types)`: false at the end of the tokens, otherwise whether the current
      token's kind is one of `types`. */
  predicate Listed(toks: seq<Token>, pos: nat, types: seq<TokenType>) {
    pos < |toks| && toks[pos].kind in types
  }

  /** Where the cursor is after a `consume(parser, types)` whose result is ignored: one further
      on when the current token is listed, otherwise where it was. */
  function ConsumedTo(toks: seq<Token>, pos: nat, types: seq<TokenType>): (q: nat)
    requires pos <= |toks|
    ensures q <= |toks|
    ensures q == pos + 1 <==> Listed(toks, pos, types)
    ensures q == pos || q == pos + 1
  {
    if Listed(toks, pos, types) then pos + 1 else pos
  }

  /** The message `expr_primary` reports when it finds no expression. */
  const ExpectedExpression: string := "expected expression"

  /** The token kinds an expression can start with. */
  const ExpressionStarts: seq<TokenType> := [NUMBER, STRING, IDENTIFIER, LPAREN, MINUS]

  /** `expr`. */
  function ExprAt(toks: seq<Token>, pos: nat): (r: Step<CNode>)
    requires pos <= |toks|
    ensures Within(toks, pos, r) && !r.Faults?
    decreases |toks| - pos, 20
  {
    AssignmentAt(toks, pos)
  }

  /** `expr_assignment`: an equality, then, on `:`, the (right-recursive) assignment after it. */
  function AssignmentAt(toks: seq<Token>, pos: nat): (r: Step<CNode>)
    requires pos <= |toks|
    ensures Within(toks, pos, r) && !r.Faults?
    decreases |toks| - pos, 19
  {
    var l := EqualityAt(toks, pos);
    if !l.Done? || !Listed(toks, l.next, [COLON]) then l
    else
      var r := AssignmentAt(toks, l.next + 1);
      if !r.Done? then r else Done(Binary(toks[l.next], l.value, r.value), r.next)
  }

  /** `expr_equality`: a relational expression, then the loop over `=` and `<>`. */
  function EqualityAt(toks: seq<Token>, pos: nat): (r: Step<CNode>)
    requires pos <= |toks|
    ensures Within(toks, pos, r) && !r.Faults?
    decreases |toks| - pos, 18
  {
    var l := RelationalAt(toks, pos);
    if !l.Done? then l else EqualityTail(toks, l.next, l.value)
  }

  /** The loop of `expr_equality` from `pos`, `lhs` being the expression built so far: each
      operator makes it the left operand of a new binary node (left associative). */
  function EqualityTail(toks: seq<Token>, pos: nat, lhs: CNode): (r: Step<CNode>)
    requires pos <= |toks|
    ensures Within(toks, pos, r) && !r.Faults?
    decreases |toks| - pos, 17
  {
    if !Listed(toks, pos, [EQ, NE]) then Done(lhs, pos)
    else
      var r := RelationalAt(toks, pos + 1);
      if !r.Done? then r else EqualityTail(toks, r.next, Binary(toks[pos], lhs, r.value))
  }

  /** `expr_relational`: an additive expression, then the loop over `<`, `>`, `<=` and `>=`. */
  function RelationalAt(toks: seq<Token>, pos: nat): (r: Step<CNode>)
    requires pos <= |toks|
    ensures Within(toks, pos, r) && !r.Faults?
    decreases |toks| - pos, 16
  {
    var l := AdditiveAt(toks, pos);
    if !l.Done? then l else RelationalTail(toks, l.next, l.value)
  }

  function RelationalTail(toks: seq<Token>, pos: nat, lhs: CNode): (r: Step<CNode>)
    requires pos <= |toks|
    ensures Within(toks, pos, r) && !r.Faults?
    decreases |toks| - pos, 15
  {
    if !Listed(toks, pos, [LT, GT, LE, GE]) then Done(lhs, pos)
    else
      var r := AdditiveAt(toks, pos + 1);
      if !r.Done? then r else RelationalTail(toks, r.next, Binary(toks[pos], lhs, r.value))
  }

  /** `expr_additive`: a multiplicative expression, then the loop over `+` and `-`. */
  function AdditiveAt(toks: seq<Token>, pos: nat): (r: Step<CNode>)
    requires pos <= |toks|
    ensures Within(toks, pos, r) && !r.Faults?
    decreases |toks| - pos, 14
  {
    var l := MultiplicativeAt(toks, pos);
    if !l.Done? then l else AdditiveTail(toks, l.next, l.value)
  }

  function AdditiveTail(toks: seq<Token>, pos: nat, lhs: CNode): (r: Step<CNode>)
    requires pos <= |toks|
    ensures Within(toks, pos, r) && !r.Faults?
    decreases |toks| - pos, 13
  {
    if !Listed(toks, pos, [PLUS, MINUS]) then Done(lhs, pos)
    else
      var r := MultiplicativeAt(toks, pos + 1);
      if !r.Done? then r else AdditiveTail(toks, r.next, Binary(toks[pos], lhs, r.value))
  }

  /** `expr_multiplicative`: an exponent, then the loop over `*` and `/` only. */
  function MultiplicativeAt(toks: seq<Token>, pos: nat): (r: Step<CNode>)
    requires pos <= |toks|
    ensures Within(toks, pos, r) && !r.Faults?
    decreases |toks| - pos, 12
  {
    var l := ExponentAt(toks, pos);
    if !l.Done? then l else MultiplicativeTail(toks, l.next, l.value)
  }

  function MultiplicativeTail(toks: seq<Token>, pos: nat, lhs: CNode): (r: Step<CNode>)
    requires pos <= |toks|
    ensures Within(toks, pos, r) && !r.Faults?
    decreases |toks| - pos, 11
  {
    if !Listed(toks, pos, [MUL, DIV]) then Done(lhs, pos)
    else
      var r := ExponentAt(toks, pos + 1);
      if !r.Done? then r else MultiplicativeTail(toks, r.next, Binary(toks[pos], lhs, r.value))
  }

  /** `expr_exponent`: a unary expression, then, on `**`, the (right-recursive) exponent after it. */
  function ExponentAt(toks: seq<Token>, pos: nat): (r: Step<CNode>)
    requires pos <= |toks|
    ensures Within(toks, pos, r) && !r.Faults?
    decreases |toks| - pos, 10
  {
    var l := UnaryAt(toks, pos);
    if !l.Done? || !Listed(toks, l.next, [EXP]) then l
    else
      var r := ExponentAt(toks, l.next + 1);
      if !r.Done? then r else Done(Binary(toks[l.next], l.value, r.value), r.next)
  }

  /** `expr_unary`: any number of minus signs before a primary expression. */
  function UnaryAt(toks: seq<Token>, pos: nat): (r: Step<CNode>)
    requires pos <= |toks|
    ensures Within(toks, pos, r) && !r.Faults?
    decreases |toks| - pos, 9
  {
    if Listed(toks, pos, [MINUS]) then
      var x := UnaryAt(toks, pos + 1);
      if !x.Done? then x else Done(Unary(toks[pos], x.value), x.next)
    else PrimaryAt(toks, pos)
  }

  /** `expr_primary`: a number, a string, a variable or call, or a parenthesised expression;
      anything else is reported and gives no node, without moving the cursor. A missing `)` is
      not noticed. */
  function PrimaryAt(toks: seq<Token>, pos: nat): (r: Step<CNode>)
    requires pos <= |toks|
    ensures Within(toks, pos, r) && !r.Faults?
    ensures r.Done? && r.next == pos <==> !Listed(toks, pos, [NUMBER, STRING, IDENTIFIER, LPAREN])
    ensures r.Done? && r.next == pos ==> r.value == Error(ExpectedExpression)
    decreases |toks| - pos, 8
  {
    if Listed(toks, pos, [NUMBER]) then Done(Number(toks[pos].lexeme), pos + 1)
    else if Listed(toks, pos, [STRING]) then Done(String(toks[pos].lexeme), pos + 1)
    else if Listed(toks, pos, [IDENTIFIER]) then VariableAt(toks, pos)
    else if Listed(toks, pos, [LPAREN]) then
      var e := ExprAt(toks, pos + 1);
      if !e.Done? then e else Done(e.value, ConsumedTo(toks, e.next, [RPAREN]))
    else Done(Error(ExpectedExpression), pos)
  }

  /** `expr_variable`: an identifier is a call when `(` follows it, otherwise a variable. */
  function VariableAt(toks: seq<Token>, pos: nat): (r: Step<CNode>)
    requires pos <= |toks| && Listed(toks, pos, [IDENTIFIER])
    ensures Within(toks, pos, r) && !r.Faults?
    ensures r.Done? ==> pos < r.next
    decreases |toks| - pos, 7
  {
    if Listed(toks, pos + 1, [LPAREN]) then ArgumentsTail(toks, pos + 2, toks[pos].lexeme, [])
    else Done(Variable(toks[pos].lexeme), pos + 1)
  }

  /** The argument loop of `expr_variable` from `pos`, `args` being the arguments read so far:
      expressions are read up to a `)`, which is then stepped over. An argument that reads no
      token leaves the cursor where it was, so the loop never ends; so does running out of
      tokens, since `check` is false at the end. */
  function ArgumentsTail(toks: seq<Token>, pos: nat, callee: string, args: seq<CNode>): (r: Step<CNode>)
    requires pos <= |toks|
    ensures Within(toks, pos, r) && !r.Faults?
    ensures r.Done? ==> pos < r.next && toks[r.next - 1].kind == RPAREN
    ensures r.Done? ==> r.value.Call? && r.value.callee == callee
    ensures r.Done? ==> |r.value.args| >= |args| && r.value.args[..|args|] == args
    decreases |toks| - pos, 21
  {
    if Listed(toks, pos, [RPAREN]) then Done(Call(callee, args), pos + 1)
    else
      var a := ExprAt(toks, pos);
      if !a.Done? then a
      else if a.next == pos then Diverges(pos)
      else ArgumentsTail(toks, a.next, callee, args + [a.value])
  }

  /** `stmt_expr`: an expression and the `.` after it, which may be missing. */
  function ExprStmtAt(toks: seq<Token>, pos: nat): (r: Step<CNode>)
    requires pos <= |toks|
    ensures Within(toks, pos, r) && !r.Faults?
    ensures r.Done? ==> r.value.ExprStmt?
    decreases |toks| - pos, 22
  {
    var e := ExprAt(toks, pos);
    if !e.Done? then e else Done(ExprStmt(e.value), ConsumedTo(toks, e.next, [PERIOD]))
  }

  /** `stmt`: the first token decides the kind of statement. */
  function StmtAt(toks: seq<Token>, pos: nat): (r: Step<CNode>)
    requires pos <= |toks|
    ensures Within(toks, pos, r)
    ensures r.Done? ==> (r.value.If? <==> Listed(toks, pos, [IF]))
    ensures r.Done? ==> (r.value.While? <==> Listed(toks, pos, [WHILE]))
    ensures r.Done? ==> (r.value.Routine? <==> Listed(toks, pos, [ROUTINE]))
    ensures r.Done? ==> (r.value.ExprStmt? <==> !Listed(toks, pos, [IF, WHILE, ROUTINE]))
    decreases |toks| - pos, 23
  {
    if Listed(toks, pos, [IF]) then IfAt(toks, pos)
    else if Listed(toks, pos, [WHILE]) then WhileAt(toks, pos)
    else if Listed(toks, pos, [ROUTINE]) then RoutineAt(toks, pos)
    else ExprStmtAt(toks, pos)
  }

  /** The loop of `stmt_block(types)` from `pos`, `done` being the statements read so far:
      statements up to a token of one of `types` or the end of the tokens, neither of which is
      an error. A statement that reads no token makes the loop spin. */
  function BlockTail(toks: seq<Token>, pos: nat, types: seq<TokenType>, done: seq<CNode>): (r: Step<CNode>)
    requires pos <= |toks|
    ensures Within(toks, pos, r)
    ensures r.Done? ==> r.next == |toks| || Listed(toks, r.next, types)
    ensures r.Done? ==> r.value.Block? && |r.value.stmts| >= |done| && r.value.stmts[..|done|] == done
    decreases |toks| - pos, 24
  {
    if Listed(toks, pos, types) || pos >= |toks| then Done(Block(done), pos)
    else
      var s := StmtAt(toks, pos);
      if !s.Done? then s
      else if s.next == pos then Diverges(pos)
      else BlockTail(toks, s.next, types, done + [s.value])
  }

  /** `stmt_if`, entered on an `if`: the condition, `then` (which may be missing), the block up
      to `else` or `end`, then, only when `else` is there, the block after it up to `end`, and
      finally `end` (which may be missing). */
  function IfAt(toks: seq<Token>, pos: nat): (r: Step<CNode>)
    requires pos <= |toks| && Listed(toks, pos, [IF])
    ensures Within(toks, pos, r) && (r.Done? ==> pos < r.next)
    ensures r.Done? ==> r.value.If? && r.value.thenBlock.Block?
    ensures r.Done? && r.value.elseBlock.Some? ==> r.value.elseBlock.value.Block?
    decreases |toks| - pos, 22
  {
    var c := ExprAt(toks, pos + 1);
    if !c.Done? then c
    else
      var t := BlockTail(toks, ConsumedTo(toks, c.next, [THEN]), [ELSE, END], []);
      if !t.Done? then t
      else if Listed(toks, t.next, [ELSE]) then
        var e := BlockTail(toks, t.next + 1, [END], []);
        if !e.Done? then e
        else Done(If(c.value, t.value, Some(e.value)), ConsumedTo(toks, e.next, [END]))
      else Done(If(c.value, t.value, None), ConsumedTo(toks, t.next, [END]))
  }

  /** `stmt_while`, entered on a `while`: the condition, `do`, the body up to `end`, and `end`
      (the last two keywords may be missing). */
  function WhileAt(toks: seq<Token>, pos: nat): (r: Step<CNode>)
    requires pos <= |toks| && Listed(toks, pos, [WHILE])
    ensures Within(toks, pos, r) && (r.Done? ==> pos < r.next)
    ensures r.Done? ==> r.value.While? && r.value.body.Block?
    decreases |toks| - pos, 22
  {
    var c := ExprAt(toks, pos + 1);
    if !c.Done? then c
    else
      var b := BlockTail(toks, ConsumedTo(toks, c.next, [DO]), [END], []);
      if !b.Done? then b
      else Done(While(c.value, b.value), ConsumedTo(toks, b.next, [END]))
  }

  /** The parameter loop of `stmt_routine` from `pos`, `params` being the names read so far:
      identifiers up to a `)`, which is left in place. Any other token, or the end of the tokens,
      gives a NULL parameter token whose lexeme is then read. */
  function ParamsTail(toks: seq<Token>, pos: nat, params: seq<string>): (r: Step<seq<string>>)
    requires pos <= |toks|
    ensures Within(toks, pos, r) && !r.Diverges?
    ensures r.Done? ==> Listed(toks, r.next, [RPAREN])
    ensures r.Done? ==> |r.value| == |params| + (r.next - pos) && r.value[..|params|] == params
    ensures r.Done? ==> forall k :: pos <= k < r.next ==>
              toks[k].kind == IDENTIFIER && r.value[|params| + k - pos] == toks[k].lexeme
    ensures r.Faults? ==> !Listed(toks, r.at, [RPAREN, IDENTIFIER])
    decreases |toks| - pos
  {
    if Listed(toks, pos, [RPAREN]) then Done(params, pos)
    else if Listed(toks, pos, [IDENTIFIER]) then ParamsTail(toks, pos + 1, params + [toks[pos].lexeme])
    else Faults(pos)
  }

  /** `stmt_routine`, entered on `routine`: the name, `(`, the parameters up to `)`, the body up
      to `end`, and `end`. A missing name, `(` or `end` is not noticed. */
  function RoutineAt(toks: seq<Token>, pos: nat): (r: Step<CNode>)
    requires pos <= |toks| && Listed(toks, pos, [ROUTINE])
    ensures Within(toks, pos, r) && (r.Done? ==> pos < r.next)
    ensures r.Done? ==> r.value.Routine? && r.value.body.Block?
    ensures r.Done? ==> (r.value.title.Some? <==> Listed(toks, pos + 1, [IDENTIFIER]))
    decreases |toks| - pos, 22
  {
    var name := if Listed(toks, pos + 1, [IDENTIFIER]) then Some(toks[pos + 1].lexeme) else None;
    var p := ConsumedTo(toks, ConsumedTo(toks, pos + 1, [IDENTIFIER]), [LPAREN]);
    var params := ParamsTail(toks, p, []);
    if !params.Done? then Propagate(params)
    else
      var b := BlockTail(toks, params.next + 1, [END], []);
      if !b.Done? then b
      else Done(Routine(name, params.value, b.value), ConsumedTo(toks, b.next, [END]))
  }

  /** The loop of `program` from `pos`: expression statements until the tokens run out. */
  function ProgramTail(toks: seq<Token>, pos: nat, done: seq<CNode>): (r: Step<CNode>)
    requires pos <= |toks|
    ensures Within(toks, pos, r) && !r.Faults?
    ensures r.Done? ==> r.next == |toks| && r.value.Block?
    ensures r.Done? ==> |r.value.stmts| >= |done| && r.value.stmts[..|done|] == done
    decreases |toks| - pos, 24
  {
    if pos >= |toks| then Done(Block(done), pos)
    else
      var s := ExprStmtAt(toks, pos);
      if !s.Done? then s
      else if s.next == pos then Diverges(pos)
      else ProgramTail(toks, s.next, done + [s.value])
  }

  /** `program`: the whole token list as a block of expression statements. */
  function Program(toks: seq<Token>): Step<CNode> {
    ProgramTail(toks, 0, [])
  }

  /** `struct parser`: the token array and the cursor `i`. The token count `is_at_end` compares
      against is the length of `tokens`. */
  class CParser {
    const tokens: seq<Token>
    var i: nat

    ghost predicate Valid() reads this {
      i <= |tokens|
    }

    constructor (tokens: seq<Token>)
      ensures this.tokens == tokens && i == 0 && Valid()
    {
      this.tokens := tokens;
      i := 0;
    }

    /** `is_at_end`. */
    predicate IsAtEnd() reads this {
      i >= |tokens|
    }

    /** `peek`: the current token. */
    function Peek(): Token
      reads this
      requires i < |tokens|
    {
      tokens[i]
    }

    /** `check`: the loop over `types`, false at the end of the tokens. */
    method Check(types: seq<TokenType>) returns (b: bool)
      requires Valid()
      ensures b == Listed(tokens, i, types)
    {
      if IsAtEnd() {
        return false;
      }
      for k := 0 to |types|
        invariant Peek().kind !in types[..k]
      {
        if Peek().kind == types[k] {
          return true;
        }
      }
      assert types[..|types|] == types;
      return false;
    }

    /** `advance`: one step, never past the end of the tokens. */
    method Advance()
      requires Valid()
      modifies this
      ensures Valid()
      ensures i == if old(i) < |tokens| then old(i) + 1 else old(i)
    {
      if !IsAtEnd() {
        i := i + 1;
      }
    }

    /** `consume`: the current token, stepped over, when its kind is listed; otherwise NULL
        (None), with the cursor left in place. */
    method Consume(types: seq<TokenType>) returns (t: Option<Token>)
      requires Valid()
      modifies this
      ensures Valid()
      ensures t == if Listed(tokens, old(i), types) then Some(tokens[old(i)]) else None
      ensures i == ConsumedTo(tokens, old(i), types)
    {
      var listed := Check(types);
      if listed {
        var token := Peek();
        Advance();
        return Some(token);
      }
      return None;
    }

    /** `parser_parse`: one expression from the cursor on, not a program. */
    method Parse() returns (r: Step<CNode>)
      requires Valid()
      modifies this
      ensures Valid()
      ensures r == ExprAt(tokens, old(i)) && i == Cursor(r)
    {
      r := Expr();
    }

    /** `expr_number`, entered on a number. */
    method ExprNumber() returns (r: Step<CNode>)
      requires Valid() && Listed(tokens, i, [NUMBER])
      modifies this
      ensures Valid()
      ensures r == Done(Number(tokens[old(i)].lexeme), old(i) + 1) && i == Cursor(r)
    {
      var token := Consume([NUMBER]);
      return Done(Number(token.value.lexeme), i);
    }

    /** `expr_string`, entered on a string. */
    method ExprString() returns (r: Step<CNode>)
      requires Valid() && Listed(tokens, i, [STRING])
      modifies this
      ensures Valid()
      ensures r == Done(String(tokens[old(i)].lexeme), old(i) + 1) && i == Cursor(r)
    {
      var token := Consume([STRING]);
      return Done(String(token.value.lexeme), i);
    }

    /** `expr_variable`, entered on an identifier: the argument loop stops only at a `)`; an
        argument that reads no token would be read again forever, and the method reports that. */
    method ExprVariable() returns (r: Step<CNode>)
      requires Valid() && Listed(tokens, i, [IDENTIFIER])
      modifies this
      ensures Valid()
      ensures r == VariableAt(tokens, old(i)) && i == Cursor(r)
      decreases |tokens| - i, 7
    {
      var token := Consume([IDENTIFIER]);
      var isCall := Check([LPAREN]);
      if !isCall {
        return Done(Variable(token.value.lexeme), i);
      }
      var lparen := Consume([LPAREN]);
      var args: seq<CNode> := [];
      var closed := Check([RPAREN]);
      while !closed
        invariant Valid() && old(i) + 2 <= i
        invariant closed == Listed(tokens, i, [RPAREN])
        invariant VariableAt(tokens, old(i)) == ArgumentsTail(tokens, i, token.value.lexeme, args)
        decreases |tokens| - i
      {
        var before := i;
        var arg := Expr();
        if !arg.Done? {
          return arg;
        }
        if i == before {
          return Diverges(i);
        }
        args := args + [arg.value];
        closed := Check([RPAREN]);
      }
      var rparen := Consume([RPAREN]);
      return Done(Call(token.value.lexeme, args), i);
    }

    /** `expr_primary`. */
    method ExprPrimary() returns (r: Step<CNode>)
      requires Valid()
      modifies this
      ensures Valid()
      ensures r == PrimaryAt(tokens, old(i)) && i == Cursor(r)
      decreases |tokens| - i, 8
    {
      var isNumber := Check([NUMBER]);
      if isNumber {
        r := ExprNumber();
        return;
      }
      var isString := Check([STRING]);
      if isString {
        r := ExprString();
        return;
      }
      var isIdentifier := Check([IDENTIFIER]);
      if isIdentifier {
        r := ExprVariable();
        return;
      }
      var isParenthesised := Check([LPAREN]);
      if isParenthesised {
        var lparen := Consume([LPAREN]);
        r := Expr();
        if !r.Done? {
          return;
        }
        var rparen := Consume([RPAREN]);
        return Done(r.value, i);
      }
      return Done(Error(ExpectedExpression), i);
    }

    /** `expr_unary`. */
    method ExprUnary() returns (r: Step<CNode>)
      requires Valid()
      modifies this
      ensures Valid()
      ensures r == UnaryAt(tokens, old(i)) && i == Cursor(r)
      decreases |tokens| - i, 9
    {
      var isMinus := Check([MINUS]);
      if !isMinus {
        r := ExprPrimary();
        return;
      }
      var op := Consume([MINUS]);
      var operand := ExprUnary();
      if !operand.Done? {
        return operand;
      }
      return Done(Unary(op.value, operand.value), i);
    }

    /** `expr_exponent`. */
    method ExprExponent() returns (r: Step<CNode>)
      requires Valid()
      modifies this
      ensures Valid()
      ensures r == ExponentAt(tokens, old(i)) && i == Cursor(r)
      decreases |tokens| - i, 10
    {
      r := ExprUnary();
      if !r.Done? {
        return;
      }
      var isPower := Check([EXP]);
      if !isPower {
        return;
      }
      var op := Consume([EXP]);
      var rhs := ExprExponent();
      if !rhs.Done? {
        return rhs;
      }
      return Done(Binary(op.value, r.value, rhs.value), i);
    }

    /** `expr_multiplicative`: the loop keeps the invariant that finishing it from the cursor
        gives what the whole routine gives. */
    method ExprMultiplicative() returns (r: Step<CNode>)
      requires Valid()
      modifies this
      ensures Valid()
      ensures r == MultiplicativeAt(tokens, old(i)) && i == Cursor(r)
      decreases |tokens| - i, 12
    {
      r := ExprExponent();
      if !r.Done? {
        return;
      }
      var node := r.value;
      var more := Check([MUL, DIV]);
      while more
        invariant Valid() && old(i) <= i
        invariant more == Listed(tokens, i, [MUL, DIV])
        invariant MultiplicativeAt(tokens, old(i)) == MultiplicativeTail(tokens, i, node)
        decreases |tokens| - i
      {
        var op := Consume([MUL, DIV]);
        var rhs := ExprExponent();
        if !rhs.Done? {
          return rhs;
        }
        node := Binary(op.value, node, rhs.value);
        more := Check([MUL, DIV]);
      }
      return Done(node, i);
    }

    /** `expr_additive`. */
    method ExprAdditive() returns (r: Step<CNode>)
      requires Valid()
      modifies this
      ensures Valid()
      ensures r == AdditiveAt(tokens, old(i)) && i == Cursor(r)
      decreases |tokens| - i, 14
    {
      r := ExprMultiplicative();
      if !r.Done? {
        return;
      }
      var node := r.value;
      var more := Check([PLUS, MINUS]);
      while more
        invariant Valid() && old(i) <= i
        invariant more == Listed(tokens, i, [PLUS, MINUS])
        invariant AdditiveAt(tokens, old(i)) == AdditiveTail(tokens, i, node)
        decreases |tokens| - i
      {
        var op := Consume([PLUS, MINUS]);
        var rhs := ExprMultiplicative();
        if !rhs.Done? {
          return rhs;
        }
        node := Binary(op.value, node, rhs.value);
        more := Check([PLUS, MINUS]);
      }
      return Done(node, i);
    }

    /** `expr_relational`. */
    method ExprRelational() returns (r: Step<CNode>)
      requires Valid()
      modifies this
      ensures Valid()
      ensures r == RelationalAt(tokens, old(i)) && i == Cursor(r)
      decreases |tokens| - i, 16
    {
      r := ExprAdditive();
      if !r.Done? {
        return;
      }
      var node := r.value;
      var more := Check([LT, GT, LE, GE]);
      while more
        invariant Valid() && old(i) <= i
        invariant more == Listed(tokens, i, [LT, GT, LE, GE])
        invariant RelationalAt(tokens, old(i)) == RelationalTail(tokens, i, node)
        decreases |tokens| - i
      {
        var op := Consume([LT, GT, LE, GE]);
        var rhs := ExprAdditive();
        if !rhs.Done? {
          return rhs;
        }
        node := Binary(op.value, node, rhs.value);
        more := Check([LT, GT, LE, GE]);
      }
      return Done(node, i);
    }

    /** `expr_equality`. */
    method ExprEquality() returns (r: Step<CNode>)
      requires Valid()
      modifies this
      ensures Valid()
      ensures r == EqualityAt(tokens, old(i)) && i == Cursor(r)
      decreases |tokens| - i, 18
    {
      r := ExprRelational();
      if !r.Done? {
        return;
      }
      var node := r.value;
      var more := Check([EQ, NE]);
      while more
        invariant Valid() && old(i) <= i
        invariant more == Listed(tokens, i, [EQ, NE])
        invariant EqualityAt(tokens, old(i)) == EqualityTail(tokens, i, node)
        decreases |tokens| - i
      {
        var op := Consume([EQ, NE]);
        var rhs := ExprRelational();
        if !rhs.Done? {
          return rhs;
        }
        node := Binary(op.value, node, rhs.value);
        more := Check([EQ, NE]);
      }
      return Done(node, i);
    }

    /** `expr_assignment`. */
    method ExprAssignment() returns (r: Step<CNode>)
      requires Valid()
      modifies this
      ensures Valid()
      ensures r == AssignmentAt(tokens, old(i)) && i == Cursor(r)
      decreases |tokens| - i, 19
    {
      r := ExprEquality();
      if !r.Done? {
        return;
      }
      var isAssignment := Check([COLON]);
      if !isAssignment {
        return;
      }
      var op := Consume([COLON]);
      var rhs := ExprAssignment();
      if !rhs.Done? {
        return rhs;
      }
      return Done(Binary(op.value, r.value, rhs.value), i);
    }

    /** `expr`. */
    method Expr() returns (r: Step<CNode>)
      requires Valid()
      modifies this
      ensures Valid()
      ensures r == ExprAt(tokens, old(i)) && i == Cursor(r)
      decreases |tokens| - i, 20
    {
      r := ExprAssignment();
    }

    /** `program`: expression statements until the end of the tokens. */
    method Program() returns (r: Step<CNode>)
      requires Valid()
      modifies this
      ensures Valid()
      ensures r == ProgramTail(tokens, old(i), []) && i == Cursor(r)
    {
      var stmts: seq<CNode> := [];
      while !IsAtEnd()
        invariant Valid() && old(i) <= i
        invariant ProgramTail(tokens, old(i), []) == ProgramTail(tokens, i, stmts)
        decreases |tokens| - i
      {
        var before := i;
        var s := StmtExpr();
        if !s.Done? {
          return s;
        }
        if i == before {
          return Diverges(i);
        }
        stmts := stmts + [s.value];
      }
      return Done(Block(stmts), i);
    }

    /** `stmt`. */
    method Stmt() returns (r: Step<CNode>)
      requires Valid()
      modifies this
      ensures Valid()
      ensures r == StmtAt(tokens, old(i)) && i == Cursor(r)
      decreases |tokens| - i, 23
    {
      var isIf := Check([IF]);
      if isIf {
        r := StmtIf();
        return;
      }
      var isWhile := Check([WHILE]);
      if isWhile {
        r := StmtWhile();
        return;
      }
      var isRoutine := Check([ROUTINE]);
      if isRoutine {
        r := StmtRoutine();
        return;
      }
      r := StmtExpr();
    }

    /** `stmt_block(types)`: statements until a token of one of `types` or the end. */
    method StmtBlock(types: seq<TokenType>) returns (r: Step<CNode>)
      requires Valid()
      modifies this
      ensures Valid()
      ensures r == BlockTail(tokens, old(i), types, []) && i == Cursor(r)
      decreases |tokens| - i, 24
    {
      var stmts: seq<CNode> := [];
      var stop := Check(types);
      while !stop && !IsAtEnd()
        invariant Valid() && old(i) <= i
        invariant stop == Listed(tokens, i, types)
        invariant BlockTail(tokens, old(i), types, []) == BlockTail(tokens, i, types, stmts)
        decreases |tokens| - i
      {
        var before := i;
        var s := Stmt();
        if !s.Done? {
          return s;
        }
        if i == before {
          return Diverges(i);
        }
        stmts := stmts + [s.value];
        stop := Check(types);
      }
      return Done(Block(stmts), i);
    }

    /** `stmt_if`, entered on `if`. */
    method StmtIf() returns (r: Step<CNode>)
      requires Valid() && Listed(tokens, i, [IF])
      modifies this
      ensures Valid()
      ensures r == IfAt(tokens, old(i)) && i == Cursor(r)
      decreases |tokens| - i, 22
    {
      var keyword := Consume([IF]);
      var cond := Expr();
      if !cond.Done? {
        return cond;
      }
      var thenKeyword := Consume([THEN]);
      var thenBlock := StmtBlock([ELSE, END]);
      if !thenBlock.Done? {
        return thenBlock;
      }
      var elseBlock: Option<CNode> := None;
      var hasElse := Check([ELSE]);
      if hasElse {
        var elseKeyword := Consume([ELSE]);
        var b := StmtBlock([END]);
        if !b.Done? {
          return b;
        }
        elseBlock := Some(b.value);
      }
      var end := Consume([END]);
      return Done(If(cond.value, thenBlock.value, elseBlock), i);
    }

    /** `stmt_while`, entered on `while`. */
    method StmtWhile() returns (r: Step<CNode>)
      requires Valid() && Listed(tokens, i, [WHILE])
      modifies this
      ensures Valid()
      ensures r == WhileAt(tokens, old(i)) && i == Cursor(r)
      decreases |tokens| - i, 22
    {
      var keyword := Consume([WHILE]);
      var cond := Expr();
      if !cond.Done? {
        return cond;
      }
      var doKeyword := Consume([DO]);
      var body := StmtBlock([END]);
      if !body.Done? {
        return body;
      }
      var end := Consume([END]);
      return Done(While(cond.value, body.value), i);
    }

    /** `stmt_routine`, entered on `routine`: the parameter loop stops only at a `)`, and
        reading the lexeme of a parameter token that is not there faults. */
    method StmtRoutine() returns (r: Step<CNode>)
      requires Valid() && Listed(tokens, i, [ROUTINE])
      modifies this
      ensures Valid()
      ensures r == RoutineAt(tokens, old(i)) && i == Cursor(r)
      decreases |tokens| - i, 22
    {
      var keyword := Consume([ROUTINE]);
      var name := Consume([IDENTIFIER]);
      var lparen := Consume([LPAREN]);
      ghost var start := i;
      var params: seq<string> := [];
      var closed := Check([RPAREN]);
      while !closed
        invariant Valid() && start <= i
        invariant closed == Listed(tokens, i, [RPAREN])
        invariant ParamsTail(tokens, start, []) == ParamsTail(tokens, i, params)
        decreases |tokens| - i
      {
        var param := Consume([IDENTIFIER]);
        if param.None? {
          return Faults(i);
        }
        params := params + [param.value.lexeme];
        closed := Check([RPAREN]);
      }
      assert ParamsTail(tokens, start, []) == Done(params, i);
      var rparen := Consume([RPAREN]);
      var body := StmtBlock([END]);
      if !body.Done? {
        return body;
      }
      var end := Consume([END]);
      var title := if name.Some? then Some(name.value.lexeme) else None;
      return Done(Routine(title, params, body.value), i);
    }

    /** `stmt_expr`. */
    method StmtExpr() returns (r: Step<CNode>)
      requires Valid()
      modifies this
      ensures Valid()
      ensures r == ExprStmtAt(tokens, old(i)) && i == Cursor(r)
      decreases |tokens| - i, 22
    {
      var e := Expr();
      if !e.Done? {
        return e;
      }
      var period := Consume([PERIOD]);
      return Done(ExprStmt(e.value), i);
    }
  }
}
