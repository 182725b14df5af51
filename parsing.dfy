/** The recursive-descent parser of the Python interpreter (blast/parser.py). The grammar is
    given as functions of the token list and a cursor position, one per parse method; the
    `Parser` class below runs the same descent by moving its cursor and is proved to agree with
    them. */
module Parsing {
  import opened Wrappers
  import opened Text
  import opened Tokens
  import opened Ast
  import Lexing

  /** What a parse method raises. */
  datatype ParseError =
    | UnexpectedEnd                   // `_consume` at the end, or a block that runs out of tokens
    | UnexpectedToken(found: Token)   // `_consume` or `_primary` on a token of the wrong kind
    | IndexOutOfRange                 // `_primary` at the end reads `self._tokens[self._current]`
    | InvalidNumber(lexeme: string)   // neither `int()` nor `float()` accepts a NUMBER lexeme

  function Message(e: ParseError): string {
    match e
    case UnexpectedEnd => "Unexpected end of file"
    case UnexpectedToken(t) => "Unexpected token: " + Tokens.Str(t)
    case IndexOutOfRange => "list index out of range"
    case InvalidNumber(s) => "could not convert string to float: " + StrRepr(s)
  }

  /** A parsed node and the cursor after it. */
  datatype Parsed = Parsed(node: Node, next: nat)

  /** A raised error and the cursor at the moment it was raised. */
  datatype Failure = Failure(error: ParseError, at: nat)

  type Outcome = Result<Parsed, Failure>

  /** Where the cursor is after a parse method returns or raises. */
  function Cursor(r: Outcome): nat {
    if r.Ok? then r.value.next else r.error.at
  }

  /** A parse from `pos` never moves the cursor back and never past the end of the tokens. */
  predicate Within(toks: seq<Token>, pos: nat, r: Outcome) {
    (r.Ok? ==> pos <= r.value.next <= |toks|) && (r.Err? ==> pos <= r.error.at <= |toks|)
  }

  /** `_check`: false at the end, otherwise whether the current token's kind is listed. */
  predicate CheckAt(toks: seq<Token>, pos: nat, kinds: set<TokenType>) {
    pos < |toks| && toks[pos].kind in kinds
  }

  /** `_consume`: the current token when `_check` holds (the cursor then moves by one); otherwise
      "Unexpected end of file" at the end and "Unexpected token" elsewhere, raised in place. */
  function ConsumeAt(toks: seq<Token>, pos: nat, kinds: set<TokenType>): (r: Result<Token, Failure>)
    ensures r.Ok? <==> CheckAt(toks, pos, kinds)
    ensures r.Ok? ==> r.value == toks[pos]
    ensures r.Err? ==> r.error.at == pos
    ensures r.Err? ==> (r.error.error == UnexpectedEnd <==> pos >= |toks|)
    ensures r.Err? && pos < |toks| ==> r.error.error == UnexpectedToken(toks[pos])
  {
    if CheckAt(toks, pos, kinds) then Ok(toks[pos])
    else if pos >= |toks| then Err(Failure(UnexpectedEnd, pos))
    else Err(Failure(UnexpectedToken(toks[pos]), pos))
  }

  /** Index of the first '.' in `s`, or `|s|` when there is none. */
  function PointIndex(s: string): (i: nat)
    ensures i <= |s| && '.' !in s[..i]
    ensures i < |s| ==> s[i] == '.'
  {
    if s == [] || s[0] == '.' then 0 else 1 + PointIndex(s[1..])
  }

  /** The value of a NUMBER lexeme: `int(lexeme)` when that succeeds, otherwise
      `float(lexeme)`. Only decimal spellings are modelled: digits for `int`, and digits with
      one point and at least one digit for `float`. Python's 4300-digit limit on `int()` is
      not modelled: a longer digit string stays an int here. */
  function NumberLiteral(lexeme: string): (r: Result<NumberValue, ParseError>)
    ensures r.Ok? && r.value.IntNumber? <==> lexeme != [] && AllDigits(lexeme)
    ensures r.Err? ==> r.error == InvalidNumber(lexeme)
  {
    if lexeme != [] && AllDigits(lexeme) then Ok(IntNumber(DigitsValue(lexeme)))
    else
      var i := PointIndex(lexeme);
      if i < |lexeme| && 2 <= |lexeme| && AllDigits(lexeme[..i]) && AllDigits(lexeme[i + 1..]) then
        Ok(FloatNumber(DigitsValue(lexeme[..i]), lexeme[i + 1..]))
      else Err(InvalidNumber(lexeme))
  }

  /** The binary operators of the grammar; a token of one of these kinds continues an expression. */
  const BinaryKinds: set<TokenType> := {COLON, PLUS, MINUS, MUL, DIV, MOD, EXP}

  /** `_expression`. */
  function ExpressionAt(toks: seq<Token>, pos: nat): (r: Outcome)
    requires pos <= |toks|
    ensures Within(toks, pos, r)
    decreases |toks| - pos, 9
  {
    AssignmentAt(toks, pos)
  }

  /** `_assignment`: an addition, then, on a colon, the (right-recursive) assignment after it. */
  function AssignmentAt(toks: seq<Token>, pos: nat): (r: Outcome)
    requires pos <= |toks|
    ensures Within(toks, pos, r)
    decreases |toks| - pos, 8
  {
    match AdditionAt(toks, pos)
    case Err(f) => Err(f)
    case Ok(Parsed(lhs, p)) =>
      if CheckAt(toks, p, {COLON}) then
        match AssignmentAt(toks, p + 1)
        case Err(f) => Err(f)
        case Ok(Parsed(rhs, q)) => Ok(Parsed(Binary(toks[p], lhs, rhs), q))
      else Ok(Parsed(lhs, p))
  }

  /** `_addition`: a multiplication, then the loop over `+`/`-`. */
  function AdditionAt(toks: seq<Token>, pos: nat): (r: Outcome)
    requires pos <= |toks|
    ensures Within(toks, pos, r)
    decreases |toks| - pos, 7
  {
    match MultiplicationAt(toks, pos)
    case Err(f) => Err(f)
    case Ok(Parsed(lhs, p)) => AdditionTail(toks, p, lhs)
  }

  /** The loop of `_addition` from `pos`, with `lhs` the expression built so far: each `+`/`-`
      wraps it as the left operand of a new binary node (left associative). */
  function AdditionTail(toks: seq<Token>, pos: nat, lhs: Node): (r: Outcome)
    requires pos <= |toks|
    ensures Within(toks, pos, r)
    decreases |toks| - pos, 6
  {
    if CheckAt(toks, pos, {PLUS, MINUS}) then
      match MultiplicationAt(toks, pos + 1)
      case Err(f) => Err(f)
      case Ok(Parsed(rhs, p)) => AdditionTail(toks, p, Binary(toks[pos], lhs, rhs))
    else Ok(Parsed(lhs, pos))
  }

  /** `_multiplication`: an exponent, then the loop over `*`, `/` and `%`. */
  function MultiplicationAt(toks: seq<Token>, pos: nat): (r: Outcome)
    requires pos <= |toks|
    ensures Within(toks, pos, r)
    decreases |toks| - pos, 5
  {
    match ExponentAt(toks, pos)
    case Err(f) => Err(f)
    case Ok(Parsed(lhs, p)) => MultiplicationTail(toks, p, lhs)
  }

  /** The loop of `_multiplication`, left associative like `AdditionTail`. */
  function MultiplicationTail(toks: seq<Token>, pos: nat, lhs: Node): (r: Outcome)
    requires pos <= |toks|
    ensures Within(toks, pos, r)
    decreases |toks| - pos, 4
  {
    if CheckAt(toks, pos, {MUL, DIV, MOD}) then
      match ExponentAt(toks, pos + 1)
      case Err(f) => Err(f)
      case Ok(Parsed(rhs, p)) => MultiplicationTail(toks, p, Binary(toks[pos], lhs, rhs))
    else Ok(Parsed(lhs, pos))
  }

  /** `_exponent`: a unary base, then, on `**`, the (right-recursive) exponent after it. */
  function ExponentAt(toks: seq<Token>, pos: nat): (r: Outcome)
    requires pos <= |toks|
    ensures Within(toks, pos, r)
    decreases |toks| - pos, 3
  {
    match UnaryAt(toks, pos)
    case Err(f) => Err(f)
    case Ok(Parsed(lhs, p)) =>
      if CheckAt(toks, p, {EXP}) then
        match ExponentAt(toks, p + 1)
        case Err(f) => Err(f)
        case Ok(Parsed(rhs, q)) => Ok(Parsed(Binary(toks[p], lhs, rhs), q))
      else Ok(Parsed(lhs, p))
  }

  /** `_unary`: any number of leading `-`, each wrapping what follows, then a primary. */
  function UnaryAt(toks: seq<Token>, pos: nat): (r: Outcome)
    requires pos <= |toks|
    ensures Within(toks, pos, r)
    ensures r.Ok? ==> pos < r.value.next
    decreases |toks| - pos, 2
  {
    if CheckAt(toks, pos, {MINUS}) then
      match UnaryAt(toks, pos + 1)
      case Err(f) => Err(f)
      case Ok(Parsed(e, p)) => Ok(Parsed(Unary(toks[pos], e), p))
    else PrimaryAt(toks, pos)
  }

  /** `_primary`: a number, string or identifier token, or a parenthesised expression. Any other
      token raises "Unexpected token"; at the end the error message itself indexes past the
      list. A NUMBER lexeme is converted after the cursor has moved past it. */
  function PrimaryAt(toks: seq<Token>, pos: nat): (r: Outcome)
    requires pos <= |toks|
    ensures Within(toks, pos, r)
    ensures r.Ok? ==> pos < r.value.next
    decreases |toks| - pos, 1
  {
    if CheckAt(toks, pos, {NUMBER}) then
      match NumberLiteral(toks[pos].lexeme)
      case Err(e) => Err(Failure(e, pos + 1))
      case Ok(v) => Ok(Parsed(Number(v), pos + 1))
    else if CheckAt(toks, pos, {STRING}) then Ok(Parsed(Str(toks[pos].lexeme), pos + 1))
    else if CheckAt(toks, pos, {IDENTIFIER}) then Ok(Parsed(Variable(toks[pos].lexeme), pos + 1))
    else if CheckAt(toks, pos, {LPAREN}) then
      match ExpressionAt(toks, pos + 1)
      case Err(f) => Err(f)
      case Ok(Parsed(e, p)) =>
        match ConsumeAt(toks, p, {RPAREN})
        case Err(f) => Err(f)
        case Ok(_) => Ok(Parsed(e, p + 1))
    else if pos == |toks| then Err(Failure(IndexOutOfRange, pos))
    else Err(Failure(UnexpectedToken(toks[pos]), pos))
  }

  /** `_statement`: an if or while statement by its keyword, otherwise an expression statement.
      A statement that parses consumes at least one token. */
  function StatementAt(toks: seq<Token>, pos: nat): (r: Outcome)
    requires pos <= |toks|
    ensures Within(toks, pos, r)
    ensures r.Ok? ==> pos < r.value.next
    decreases |toks| - pos, 11
  {
    if CheckAt(toks, pos, {IF}) then IfStatementAt(toks, pos)
    else if CheckAt(toks, pos, {WHILE}) then WhileStatementAt(toks, pos)
    else ExpressionStatementAt(toks, pos)
  }

  /** `_expression_statement`: an expression and its terminating period. */
  function ExpressionStatementAt(toks: seq<Token>, pos: nat): (r: Outcome)
    requires pos <= |toks|
    ensures Within(toks, pos, r)
    ensures r.Ok? ==> pos < r.value.next
    decreases |toks| - pos, 10
  {
    match ExpressionAt(toks, pos)
    case Err(f) => Err(f)
    case Ok(Parsed(e, p)) =>
      match ConsumeAt(toks, p, {PERIOD})
      case Err(f) => Err(f)
      case Ok(_) => Ok(Parsed(ExprStmt(e), p + 1))
  }

  /** `_if_statement`: `if` condition `then` block, an optional `else` block, `end`. The else
      block is None when no `else` follows the then block. */
  function IfStatementAt(toks: seq<Token>, pos: nat): (r: Outcome)
    requires pos <= |toks|
    ensures Within(toks, pos, r)
    ensures r.Ok? ==> pos < r.value.next
    decreases |toks| - pos, 10
  {
    match ConsumeAt(toks, pos, {IF})
    case Err(f) => Err(f)
    case Ok(_) =>
      match ExpressionAt(toks, pos + 1)
      case Err(f) => Err(f)
      case Ok(Parsed(c, p1)) =>
        match ConsumeAt(toks, p1, {THEN})
        case Err(f) => Err(f)
        case Ok(_) =>
          match BlockTail(toks, p1 + 1, {ELSE, END}, [])
          case Err(f) => Err(f)
          case Ok(Parsed(t, p2)) =>
            if CheckAt(toks, p2, {ELSE}) then
              match BlockTail(toks, p2 + 1, {END}, [])
              case Err(f) => Err(f)
              case Ok(Parsed(e, p3)) =>
                match ConsumeAt(toks, p3, {END})
                case Err(f) => Err(f)
                case Ok(_) => Ok(Parsed(If(c, t, Some(e)), p3 + 1))
            else
              match ConsumeAt(toks, p2, {END})
              case Err(f) => Err(f)
              case Ok(_) => Ok(Parsed(If(c, t, None), p2 + 1))
  }

  /** `_while_statement`: `while` condition `do` block `end`. */
  function WhileStatementAt(toks: seq<Token>, pos: nat): (r: Outcome)
    requires pos <= |toks|
    ensures Within(toks, pos, r)
    ensures r.Ok? ==> pos < r.value.next
    decreases |toks| - pos, 10
  {
    match ConsumeAt(toks, pos, {WHILE})
    case Err(f) => Err(f)
    case Ok(_) =>
      match ExpressionAt(toks, pos + 1)
      case Err(f) => Err(f)
      case Ok(Parsed(c, p1)) =>
        match ConsumeAt(toks, p1, {DO})
        case Err(f) => Err(f)
        case Ok(_) =>
          match BlockTail(toks, p1 + 1, {END}, [])
          case Err(f) => Err(f)
          case Ok(Parsed(body, p2)) =>
            match ConsumeAt(toks, p2, {END})
            case Err(f) => Err(f)
            case Ok(_) => Ok(Parsed(While(c, body), p2 + 1))
  }

  /** The loop of `_block_statement_until(kinds)` from `pos`, with `done` the statements read so
      far: statements are read until a token of a listed kind, which is left in place; running
      out of tokens first raises "Unexpected end of file". */
  function BlockTail(toks: seq<Token>, pos: nat, kinds: set<TokenType>, done: seq<Node>): (r: Outcome)
    requires pos <= |toks|
    ensures Within(toks, pos, r)
    ensures r.Ok? ==> r.value.next < |toks| && toks[r.value.next].kind in kinds
    decreases |toks| - pos, 12
  {
    if pos == |toks| then Err(Failure(UnexpectedEnd, pos))
    else if CheckAt(toks, pos, kinds) then Ok(Parsed(Block(done), pos))
    else
      match StatementAt(toks, pos)
      case Err(f) => Err(f)
      case Ok(Parsed(s, p)) => BlockTail(toks, p, kinds, done + [s])
  }

  /** The loop of `_program` from `pos`: statements until the tokens run out. */
  function ProgramTail(toks: seq<Token>, pos: nat, done: seq<Node>): (r: Outcome)
    requires pos <= |toks|
    ensures Within(toks, pos, r)
    ensures r.Ok? ==> r.value.next == |toks| && r.value.node.Block?
    ensures r.Ok? ==> |r.value.node.stmts| >= |done| && r.value.node.stmts[..|done|] == done
    decreases |toks| - pos
  {
    if pos == |toks| then Ok(Parsed(Block(done), pos))
    else
      match StatementAt(toks, pos)
      case Err(f) => Err(f)
      case Ok(Parsed(s, p)) => ProgramTail(toks, p, done + [s])
  }

  /** `parse()`: the whole token list as one block of statements. */
  function Program(toks: seq<Token>): Outcome {
    ProgramTail(toks, 0, [])
  }

  /** Why `Parser(source, tokens)` cannot start: neither argument was given, or scanning the
      source raised. */
  datatype InitError = NoInput | ScanFailed(error: Lexing.ScanError)

  /** The tokens `__init__` settles on: the token list when one is given, otherwise the scan of
      the source. */
  function InitialTokens(source: Option<string>, tokens: Option<seq<Token>>): Result<seq<Token>, InitError> {
    if tokens.Some? then Ok(tokens.value)
    else if source.Some? then
      match Lexing.Scan(source.value)
      case Ok(ts) => Ok(ts)
      case Err(e) => Err(ScanFailed(e))
    else Err(NoInput)
  }

  /** The parser object: the token list and the cursor into it. */
  class Parser {
    const tokens: seq<Token>
    var current: nat

    ghost predicate Valid() reads this {
      current <= |tokens|
    }

    constructor (tokens: seq<Token>)
      ensures this.tokens == tokens && current == 0 && Valid()
    {
      this.tokens := tokens;
      current := 0;
    }

    /** `Parser(source=..., tokens=...)`: a token list, when given, is used; otherwise the
        source is scanned; a scan error or a call with neither argument raises. */
    static method New(source: Option<string>, tokens: Option<seq<Token>>) returns (r: Result<Parser, InitError>)
      ensures r.Ok? <==> InitialTokens(source, tokens).Ok?
      ensures r.Ok? ==>
        (fresh(r.value) && r.value.Valid() && r.value.current == 0 &&
         r.value.tokens == InitialTokens(source, tokens).value)
      ensures r.Err? ==> r.error == InitialTokens(source, tokens).error
    {
      if tokens.Some? {
        var p := new Parser(tokens.value);
        return Ok(p);
      }
      if source.None? {
        return Err(NoInput);
      }
      var scanner := new Lexing.Scanner(source.value);
      var scanned := scanner.ScanTokens();
      if scanned.Err? {
        return Err(ScanFailed(scanned.error));
      }
      var p := new Parser(scanned.value);
      return Ok(p);
    }

    /** `_is_at_end`. */
    predicate IsAtEnd() reads this {
      current >= |tokens|
    }

    /** `_check`: never moves the cursor. */
    predicate Check(kinds: set<TokenType>) reads this {
      CheckAt(tokens, current, kinds)
    }

    /** `_advance`: one step, never past the end of the tokens. */
    method Advance()
      requires Valid()
      modifies this
      ensures Valid()
      ensures current == if old(current) < |tokens| then old(current) + 1 else old(current)
    {
      if !IsAtEnd() {
        current := current + 1;
      }
    }

    /** `_consume`: the current token, which is stepped over, when its kind is listed; otherwise
        the error, with the cursor left in place. */
    method Consume(kinds: set<TokenType>) returns (r: Result<Token, Failure>)
      requires Valid()
      modifies this
      ensures Valid()
      ensures r == ConsumeAt(tokens, old(current), kinds)
      ensures current == if r.Ok? then old(current) + 1 else old(current)
    {
      if Check(kinds) {
        var token := tokens[current];
        Advance();
        return Ok(token);
      }
      if IsAtEnd() {
        return Err(Failure(UnexpectedEnd, current));
      }
      return Err(Failure(UnexpectedToken(tokens[current]), current));
    }

    /** `parse`: the program from the cursor on. */
    method Parse() returns (r: Outcome)
      requires Valid()
      modifies this
      ensures Valid()
      ensures r == ProgramTail(tokens, old(current), []) && current == Cursor(r)
    {
      var statements: seq<Node> := [];
      while !IsAtEnd()
        invariant Valid() && old(current) <= current
        invariant ProgramTail(tokens, old(current), []) == ProgramTail(tokens, current, statements)
        decreases |tokens| - current
      {
        var s := Statement();
        if s.Err? {
          return s;
        }
        statements := statements + [s.value.node];
      }
      return Ok(Parsed(Block(statements), current));
    }

    /** `_expression`. */
    method Expression() returns (r: Outcome)
      requires Valid()
      modifies this
      ensures Valid()
      ensures r == ExpressionAt(tokens, old(current)) && current == Cursor(r)
      decreases |tokens| - current, 9
    {
      r := Assignment();
    }

    /** `_assignment`. */
    method Assignment() returns (r: Outcome)
      requires Valid()
      modifies this
      ensures Valid()
      ensures r == AssignmentAt(tokens, old(current)) && current == Cursor(r)
      decreases |tokens| - current, 8
    {
      r := Addition();
      if r.Err? || !Check({COLON}) {
        return;
      }
      var op := Consume({COLON});
      var rhs := Assignment();
      if rhs.Err? {
        return rhs;
      }
      return Ok(Parsed(Binary(op.value, r.value.node, rhs.value.node), current));
    }

    /** `_addition`: the loop keeps the invariant that finishing it from the cursor gives what
        the whole method gives. */
    method Addition() returns (r: Outcome)
      requires Valid()
      modifies this
      ensures Valid()
      ensures r == AdditionAt(tokens, old(current)) && current == Cursor(r)
      decreases |tokens| - current, 7
    {
      r := Multiplication();
      if r.Err? {
        return;
      }
      var expr := r.value.node;
      while Check({PLUS, MINUS})
        invariant Valid() && old(current) <= current
        invariant AdditionAt(tokens, old(current)) == AdditionTail(tokens, current, expr)
        decreases |tokens| - current
      {
        var op := Consume({PLUS, MINUS});
        var rhs := Multiplication();
        if rhs.Err? {
          return rhs;
        }
        expr := Binary(op.value, expr, rhs.value.node);
      }
      return Ok(Parsed(expr, current));
    }

    /** `_multiplication`, a loop like `Addition`. */
    method Multiplication() returns (r: Outcome)
      requires Valid()
      modifies this
      ensures Valid()
      ensures r == MultiplicationAt(tokens, old(current)) && current == Cursor(r)
      decreases |tokens| - current, 5
    {
      r := Exponent();
      if r.Err? {
        return;
      }
      var expr := r.value.node;
      while Check({MUL, DIV, MOD})
        invariant Valid() && old(current) <= current
        invariant MultiplicationAt(tokens, old(current)) == MultiplicationTail(tokens, current, expr)
        decreases |tokens| - current
      {
        var op := Consume({MUL, DIV, MOD});
        var rhs := Exponent();
        if rhs.Err? {
          return rhs;
        }
        expr := Binary(op.value, expr, rhs.value.node);
      }
      return Ok(Parsed(expr, current));
    }

    /** `_exponent`. */
    method Exponent() returns (r: Outcome)
      requires Valid()
      modifies this
      ensures Valid()
      ensures r == ExponentAt(tokens, old(current)) && current == Cursor(r)
      decreases |tokens| - current, 3
    {
      r := Unary();
      if r.Err? || !Check({EXP}) {
        return;
      }
      var op := Consume({EXP});
      var rhs := Exponent();
      if rhs.Err? {
        return rhs;
      }
      return Ok(Parsed(Binary(op.value, r.value.node, rhs.value.node), current));
    }

    /** `_unary`. */
    method Unary() returns (r: Outcome)
      requires Valid()
      modifies this
      ensures Valid()
      ensures r == UnaryAt(tokens, old(current)) && current == Cursor(r)
      decreases |tokens| - current, 2
    {
      if Check({MINUS}) {
        var op := Consume({MINUS});
        r := Unary();
        if r.Ok? {
          r := Ok(Parsed(Node.Unary(op.value, r.value.node), current));
        }
        return;
      }
      r := Primary();
    }

    /** `_primary`. */
    method Primary() returns (r: Outcome)
      requires Valid()
      modifies this
      ensures Valid()
      ensures r == PrimaryAt(tokens, old(current)) && current == Cursor(r)
      decreases |tokens| - current, 1
    {
      if Check({NUMBER}) {
        var token := Consume({NUMBER});
        var val := NumberLiteral(token.value.lexeme);
        if val.Err? {
          return Err(Failure(val.error, current));
        }
        return Ok(Parsed(Number(val.value), current));
      } else if Check({STRING}) {
        var token := Consume({STRING});
        return Ok(Parsed(Str(token.value.lexeme), current));
      } else if Check({IDENTIFIER}) {
        var token := Consume({IDENTIFIER});
        return Ok(Parsed(Variable(token.value.lexeme), current));
      } else if Check({LPAREN}) {
        var open := Consume({LPAREN});
        r := Expression();
        if r.Err? {
          return;
        }
        var close := Consume({RPAREN});
        if close.Err? {
          return Err(close.error);
        }
        return Ok(Parsed(r.value.node, current));
      }
      if IsAtEnd() {
        return Err(Failure(IndexOutOfRange, current));
      }
      return Err(Failure(UnexpectedToken(tokens[current]), current));
    }

    /** `_statement`. */
    method Statement() returns (r: Outcome)
      requires Valid()
      modifies this
      ensures Valid()
      ensures r == StatementAt(tokens, old(current)) && current == Cursor(r)
      decreases |tokens| - current, 11
    {
      if Check({IF}) {
        r := IfStatement();
      } else if Check({WHILE}) {
        r := WhileStatement();
      } else {
        r := ExpressionStatement();
      }
    }

    /** `_expression_statement`. */
    method ExpressionStatement() returns (r: Outcome)
      requires Valid()
      modifies this
      ensures Valid()
      ensures r == ExpressionStatementAt(tokens, old(current)) && current == Cursor(r)
      decreases |tokens| - current, 10
    {
      r := Expression();
      if r.Err? {
        return;
      }
      var period := Consume({PERIOD});
      if period.Err? {
        return Err(period.error);
      }
      return Ok(Parsed(ExprStmt(r.value.node), current));
    }

    /** `_if_statement`. */
    method IfStatement() returns (r: Outcome)
      requires Valid()
      modifies this
      ensures Valid()
      ensures r == IfStatementAt(tokens, old(current)) && current == Cursor(r)
      decreases |tokens| - current, 10
    {
      var keyword := Consume({IF});
      if keyword.Err? {
        return Err(keyword.error);
      }
      var condition := Expression();
      if condition.Err? {
        return condition;
      }
      var thenKeyword := Consume({THEN});
      if thenKeyword.Err? {
        return Err(thenKeyword.error);
      }
      var thenBranch := BlockStatementUntil({ELSE, END});
      if thenBranch.Err? {
        return thenBranch;
      }
      var elseBranch: Option<Node> := None;
      if Check({ELSE}) {
        var elseKeyword := Consume({ELSE});
        var block := BlockStatementUntil({END});
        if block.Err? {
          return block;
        }
        elseBranch := Some(block.value.node);
      }
      // the last block stopped at END (an ELSE was taken above), so this cannot fail
      var end := Consume({END});
      return Ok(Parsed(If(condition.value.node, thenBranch.value.node, elseBranch), current));
    }

    /** `_while_statement`. */
    method WhileStatement() returns (r: Outcome)
      requires Valid()
      modifies this
      ensures Valid()
      ensures r == WhileStatementAt(tokens, old(current)) && current == Cursor(r)
      decreases |tokens| - current, 10
    {
      var keyword := Consume({WHILE});
      if keyword.Err? {
        return Err(keyword.error);
      }
      var condition := Expression();
      if condition.Err? {
        return condition;
      }
      var doKeyword := Consume({DO});
      if doKeyword.Err? {
        return Err(doKeyword.error);
      }
      var body := BlockStatementUntil({END});
      if body.Err? {
        return body;
      }
      // the body stopped at END, so this cannot fail
      var end := Consume({END});
      return Ok(Parsed(While(condition.value.node, body.value.node), current));
    }

    /** `_block_statement_until(kinds)`. */
    method BlockStatementUntil(kinds: set<TokenType>) returns (r: Outcome)
      requires Valid()
      modifies this
      ensures Valid()
      ensures r == BlockTail(tokens, old(current), kinds, []) && current == Cursor(r)
      decreases |tokens| - current, 12
    {
      var statements: seq<Node> := [];
      while !IsAtEnd() && !Check(kinds)
        invariant Valid() && old(current) <= current
        invariant BlockTail(tokens, old(current), kinds, []) == BlockTail(tokens, current, kinds, statements)
        decreases |tokens| - current
      {
        var s := Statement();
        if s.Err? {
          return s;
        }
        statements := statements + [s.value.node];
      }
      if IsAtEnd() {
        return Err(Failure(UnexpectedEnd, current));
      }
      return Ok(Parsed(Block(statements), current));
    }
  }
}
