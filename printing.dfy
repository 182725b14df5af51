/** The tree printer of the C port (src/ast_printer.c): a serialiser that writes expressions
    with parentheses around binary operands that are themselves binary, and statements one per
    line, indented four spaces per level, with the error check that runs before it. */
module CPrinting {
  import opened Wrappers
  import opened Tokens
  import opened CAst

  /** `printf("%*s", depth * 4, "")`: four spaces per level. */
  function Indent(depth: nat): (s: string)
    ensures |s| == 4 * depth
    ensures forall k :: 0 <= k < |s| ==> s[k] == ' '
  {
    if depth == 0 then "" else "    " + Indent(depth - 1)
  }

  /** A binary operand as `visit_expr_binary` writes it: in parentheses exactly when the
      operand is itself a binary node. */
  function Operand(child: CNode, text: string): string {
    if child.Binary? then "(" + text + ")" else text
  }

  /** What a routine's name prints as: its identifier, or nothing when it has none. */
  function TitleText(title: Option<string>): string {
    if title.Some? then title.value else ""
  }

  /** What `visit(n, depth)` writes to standard output. Expressions ignore the depth; statements
      start with the indentation of their depth and end with a newline; a block writes its
      statements at its own depth; the bodies of if, while and routine are one level deeper,
      with `end` back at the statement's level. An error node has no case in `visit`, so it
      writes nothing. */
  function Render(n: CNode, depth: nat): string
    decreases n, 1
  {
    match n
    case Number(lexeme) => lexeme
    case String(value) => "\"" + value + "\""
    case Variable(name) => name
    case Binary(op, l, r) =>
      Operand(l, Render(l, depth + 1)) + " " + op.lexeme + " " + Operand(r, Render(r, depth + 1))
    case Unary(op, x) => "(" + op.lexeme + Render(x, depth + 1) + ")"
    case Call(callee, args) => callee + "(" + ArgumentsFrom(args, 0, depth + 1) + ")"
    case ExprStmt(e) => Indent(depth) + Render(e, depth + 1) + "\n"
    case Block(stmts) => StatementsFrom(stmts, 0, depth)
    case If(c, t, e) =>
      Indent(depth) + "if " + Render(c, depth + 1) + " then\n" + Render(t, depth + 1) +
      (if e.Some? then Indent(depth) + "else\n" + Render(e.value, depth + 1) else "") +
      Indent(depth) + "end\n"
    case While(c, b) =>
      Indent(depth) + "while " + Render(c, depth + 1) + " do\n" + Render(b, depth + 1) +
      Indent(depth) + "end\n"
    case Routine(title, params, body) =>
      Indent(depth) + "routine " + TitleText(title) + "(" + ParametersFrom(params, 0) + ")\n" +
      Render(body, depth + 1) + Indent(depth) + "end\n"
    case Error(_) => ""
  }

  /** The loop of `visit_expr_call` from argument `k` on: each argument, followed by a space
      unless it is the last. */
  function ArgumentsFrom(args: seq<CNode>, k: nat, depth: nat): string
    decreases args, |args| - k
  {
    if k >= |args| then ""
    else Render(args[k], depth) + (if k < |args| - 1 then " " else "") + ArgumentsFrom(args, k + 1, depth)
  }

  /** The loop of `visit_stmt_block` from statement `k` on, all at the block's depth. */
  function StatementsFrom(stmts: seq<CNode>, k: nat, depth: nat): string
    decreases stmts, |stmts| - k
  {
    if k >= |stmts| then "" else Render(stmts[k], depth) + StatementsFrom(stmts, k + 1, depth)
  }

  /** The loop of `visit_stmt_routine` over the parameters from `k` on, separated by spaces. */
  function ParametersFrom(params: seq<string>, k: nat): string
    decreases |params| - k
  {
    if k >= |params| then ""
    else params[k] + (if k < |params| - 1 then " " else "") + ParametersFrom(params, k + 1)
  }

  // The error check that runs before printing.

  /** What `ast_error_precheck` does as written: it finds no error, or reports the message of
      the first error node it meets, or reads the else block of an if that has none (the parser
      never sets `else_` in that case). */
  datatype Precheck = Clean | Found(message: string) | ReadsUnsetElse

  /** `first || second`: the second check runs only when the first finds nothing. */
  function OrElse(first: Precheck, second: Precheck): Precheck {
    if first.Clean? then second else first
  }

  /** `ast_error_precheck` as written: an if statement always checks its else block. */
  function PrecheckAsWritten(n: CNode): Precheck
    decreases n, 1
  {
    match n
    case Error(message) => Found(message)
    case Binary(_, l, r) => OrElse(PrecheckAsWritten(l), PrecheckAsWritten(r))
    case Unary(_, x) => PrecheckAsWritten(x)
    case Call(_, args) => PrecheckAllAsWritten(args, 0)
    case ExprStmt(e) => PrecheckAsWritten(e)
    case Block(stmts) => PrecheckAllAsWritten(stmts, 0)
    case If(c, t, e) =>
      OrElse(OrElse(PrecheckAsWritten(c), PrecheckAsWritten(t)),
             if e.Some? then PrecheckAsWritten(e.value) else ReadsUnsetElse)
    case While(c, b) => OrElse(PrecheckAsWritten(c), PrecheckAsWritten(b))
    case Routine(_, _, body) => PrecheckAsWritten(body)
    case _ => Clean
  }

  /** The loops of `ast_error_precheck` over arguments and statements, from `k` on, with their
      early return. */
  function PrecheckAllAsWritten(ns: seq<CNode>, k: nat): Precheck
    decreases ns, |ns| - k
  {
    if k >= |ns| then Clean else OrElse(PrecheckAsWritten(ns[k]), PrecheckAllAsWritten(ns, k + 1))
  }

  /** `a` if it found something, otherwise `b`. */
  function FirstOf(a: Option<string>, b: Option<string>): Option<string> {
    if a.Some? then a else b
  }

  /** The error check with the else block checked only when there is one: the message of the
      first error node, left to right, or None. This is the check the printer below runs. */
  function FirstError(n: CNode): Option<string>
    decreases n, 1
  {
    match n
    case Error(message) => Some(message)
    case Binary(_, l, r) => FirstOf(FirstError(l), FirstError(r))
    case Unary(_, x) => FirstError(x)
    case Call(_, args) => FirstErrorFrom(args, 0)
    case ExprStmt(e) => FirstError(e)
    case Block(stmts) => FirstErrorFrom(stmts, 0)
    case If(c, t, e) =>
      FirstOf(FirstOf(FirstError(c), FirstError(t)), if e.Some? then FirstError(e.value) else None)
    case While(c, b) => FirstOf(FirstError(c), FirstError(b))
    case Routine(_, _, body) => FirstError(body)
    case _ => None
  }

  function FirstErrorFrom(ns: seq<CNode>, k: nat): Option<string>
    decreases ns, |ns| - k
  {
    if k >= |ns| then None else FirstOf(FirstError(ns[k]), FirstErrorFrom(ns, k + 1))
  }

  /** Every error message in the tree, left to right (children in order, the condition before
      the blocks): the reference the short-circuiting check is compared with. */
  function ErrorMessages(n: CNode): seq<string>
    decreases n, 1
  {
    match n
    case Error(message) => [message]
    case Binary(_, l, r) => ErrorMessages(l) + ErrorMessages(r)
    case Unary(_, x) => ErrorMessages(x)
    case Call(_, args) => MessagesFrom(args, 0)
    case ExprStmt(e) => ErrorMessages(e)
    case Block(stmts) => MessagesFrom(stmts, 0)
    case If(c, t, e) =>
      ErrorMessages(c) + ErrorMessages(t) + (if e.Some? then ErrorMessages(e.value) else [])
    case While(c, b) => ErrorMessages(c) + ErrorMessages(b)
    case Routine(_, _, body) => ErrorMessages(body)
    case _ => []
  }

  function MessagesFrom(ns: seq<CNode>, k: nat): seq<string>
    decreases ns, |ns| - k
  {
    if k >= |ns| then [] else ErrorMessages(ns[k]) + MessagesFrom(ns, k + 1)
  }

  function Head(s: seq<string>): Option<string> {
    if s == [] then None else Some(s[0])
  }

  lemma HeadOfConcat(a: seq<string>, b: seq<string>)
    ensures Head(a + b) == FirstOf(Head(a), Head(b))
  {
    if a != [] {
      assert (a + b)[0] == a[0];
    }
  }

  /** The check finds an error exactly when the tree holds an error node, and the message it
      reports is that of the first error node, left to right. */
  lemma {:induction false} FirstErrorIsFirstMessage(n: CNode)
    ensures FirstError(n) == Head(ErrorMessages(n))
    ensures FirstError(n).Some? <==> ErrorMessages(n) != []
    decreases n, 1
  {
    match n
    case Error(_) =>
    case Binary(_, l, r) =>
      FirstErrorIsFirstMessage(l);
      FirstErrorIsFirstMessage(r);
      HeadOfConcat(ErrorMessages(l), ErrorMessages(r));
    case Unary(_, x) =>
      FirstErrorIsFirstMessage(x);
    case Call(_, args) =>
      FirstErrorFromIsFirstMessage(args, 0);
    case ExprStmt(e) =>
      FirstErrorIsFirstMessage(e);
    case Block(stmts) =>
      FirstErrorFromIsFirstMessage(stmts, 0);
    case If(c, t, e) =>
      FirstErrorIsFirstMessage(c);
      FirstErrorIsFirstMessage(t);
      HeadOfConcat(ErrorMessages(c), ErrorMessages(t));
      if e.Some? {
        FirstErrorIsFirstMessage(e.value);
        HeadOfConcat(ErrorMessages(c) + ErrorMessages(t), ErrorMessages(e.value));
      } else {
        HeadOfConcat(ErrorMessages(c) + ErrorMessages(t), []);
      }
    case While(c, b) =>
      FirstErrorIsFirstMessage(c);
      FirstErrorIsFirstMessage(b);
      HeadOfConcat(ErrorMessages(c), ErrorMessages(b));
    case Routine(_, _, body) =>
      FirstErrorIsFirstMessage(body);
    case Number(_) =>
    case String(_) =>
    case Variable(_) =>
  }

  lemma {:induction false} FirstErrorFromIsFirstMessage(ns: seq<CNode>, k: nat)
    ensures FirstErrorFrom(ns, k) == Head(MessagesFrom(ns, k))
    decreases ns, |ns| - k
  {
    if k < |ns| {
      FirstErrorIsFirstMessage(ns[k]);
      FirstErrorFromIsFirstMessage(ns, k + 1);
      HeadOfConcat(ErrorMessages(ns[k]), MessagesFrom(ns, k + 1));
    }
  }

  /** Every if statement in the tree has an else block. */
  predicate ElsesSet(n: CNode) {
    match n
    case Binary(_, l, r) => ElsesSet(l) && ElsesSet(r)
    case Unary(_, x) => ElsesSet(x)
    case Call(_, args) => forall k :: 0 <= k < |args| ==> ElsesSet(args[k])
    case ExprStmt(e) => ElsesSet(e)
    case Block(stmts) => forall k :: 0 <= k < |stmts| ==> ElsesSet(stmts[k])
    case If(c, t, e) => e.Some? && ElsesSet(c) && ElsesSet(t) && ElsesSet(e.value)
    case While(c, b) => ElsesSet(c) && ElsesSet(b)
    case Routine(_, _, body) => ElsesSet(body)
    case _ => true
  }

  /** The tree the statement parser builds for `if x then end`: the check as written reads its
      unset else block, the corrected check finds no error. */
  lemma PrecheckOfIfWithoutElse()
    ensures PrecheckAsWritten(If(Variable("x"), Block([]), None)) == ReadsUnsetElse
    ensures FirstError(If(Variable("x"), Block([]), None)) == None
  {
  }

  /** A result of the corrected check as the written one states it. */
  function AsPrecheck(found: Option<string>): Precheck {
    if found.Some? then Found(found.value) else Clean
  }

  lemma OrElseOfFirst(a: Option<string>, b: Option<string>)
    ensures OrElse(AsPrecheck(a), AsPrecheck(b)) == AsPrecheck(FirstOf(a, b))
  {
  }

  /** Where every if has an else block, the check as written and the corrected one agree. */
  lemma {:induction false} AsWrittenAgreesWhenElsesSet(n: CNode)
    requires ElsesSet(n)
    ensures PrecheckAsWritten(n) == AsPrecheck(FirstError(n))
    decreases n, 1
  {
    match n
    case Error(_) =>
    case Binary(_, l, r) =>
      AsWrittenAgreesWhenElsesSet(l);
      AsWrittenAgreesWhenElsesSet(r);
      OrElseOfFirst(FirstError(l), FirstError(r));
    case Unary(_, x) =>
      AsWrittenAgreesWhenElsesSet(x);
    case Call(_, args) =>
      AllAsWrittenAgree(args, 0);
    case ExprStmt(e) =>
      AsWrittenAgreesWhenElsesSet(e);
    case Block(stmts) =>
      AllAsWrittenAgree(stmts, 0);
    case If(c, t, e) =>
      AsWrittenAgreesWhenElsesSet(c);
      AsWrittenAgreesWhenElsesSet(t);
      AsWrittenAgreesWhenElsesSet(e.value);
      OrElseOfFirst(FirstError(c), FirstError(t));
      OrElseOfFirst(FirstOf(FirstError(c), FirstError(t)), FirstError(e.value));
    case While(c, b) =>
      AsWrittenAgreesWhenElsesSet(c);
      AsWrittenAgreesWhenElsesSet(b);
      OrElseOfFirst(FirstError(c), FirstError(b));
    case Routine(_, _, body) =>
      AsWrittenAgreesWhenElsesSet(body);
    case Number(_) =>
    case String(_) =>
    case Variable(_) =>
  }

  lemma {:induction false} AllAsWrittenAgree(ns: seq<CNode>, k: nat)
    requires forall m :: 0 <= m < |ns| ==> ElsesSet(ns[m])
    ensures PrecheckAllAsWritten(ns, k) == AsPrecheck(FirstErrorFrom(ns, k))
    decreases ns, |ns| - k
  {
    if k < |ns| {
      AsWrittenAgreesWhenElsesSet(ns[k]);
      AllAsWrittenAgree(ns, k + 1);
      OrElseOfFirst(FirstError(ns[k]), FirstErrorFrom(ns, k + 1));
    }
  }

  /** The check as written goes wrong on every if statement without an else block whose
      condition and then block hold no error: it reads the unset else block, where the
      corrected check finds nothing. */
  lemma PrecheckReadsUnsetElse(c: CNode, t: CNode)
    requires ElsesSet(c) && ElsesSet(t) && FirstError(c) == None && FirstError(t) == None
    ensures PrecheckAsWritten(If(c, t, None)) == ReadsUnsetElse
    ensures FirstError(If(c, t, None)) == None
  {
    AsWrittenAgreesWhenElsesSet(c);
    AsWrittenAgreesWhenElsesSet(t);
  }

  // Properties of the printed text.

  /** An expression prints the same at every depth: only statements indent. */
  lemma {:induction false} ExpressionIgnoresDepth(e: CNode, d1: nat, d2: nat)
    requires ExpressionTree(e)
    ensures Render(e, d1) == Render(e, d2)
    decreases e, 1
  {
    match e
    case Binary(_, l, r) =>
      ExpressionIgnoresDepth(l, d1 + 1, d2 + 1);
      ExpressionIgnoresDepth(r, d1 + 1, d2 + 1);
    case Unary(_, x) =>
      ExpressionIgnoresDepth(x, d1 + 1, d2 + 1);
    case Call(_, args) =>
      ArgumentsIgnoreDepth(args, 0, d1 + 1, d2 + 1);
    case Number(_) =>
    case String(_) =>
    case Variable(_) =>
    case Error(_) =>
  }

  lemma {:induction false} ArgumentsIgnoreDepth(args: seq<CNode>, k: nat, d1: nat, d2: nat)
    requires forall i :: 0 <= i < |args| ==> ExpressionTree(args[i])
    ensures ArgumentsFrom(args, k, d1) == ArgumentsFrom(args, k, d2)
    decreases args, |args| - k
  {
    if k < |args| {
      ExpressionIgnoresDepth(args[k], d1, d2);
      ArgumentsIgnoreDepth(args, k + 1, d1, d2);
    }
  }

  /** Text that starts with the indentation of `depth` and ends with a newline. */
  predicate IndentedLines(text: string, depth: nat) {
    4 * depth < |text| && text[..4 * depth] == Indent(depth) && text[|text| - 1] == '\n'
  }

  lemma IndentedLinesOf(depth: nat, front: string, last: string)
    requires |front| >= 4 * depth && front[..4 * depth] == Indent(depth)
    requires last != [] && last[|last| - 1] == '\n'
    ensures IndentedLines(front + last, depth)
  {
    assert (front + last)[..4 * depth] == front[..4 * depth];
  }

  /** An expression statement, if, while or routine prints as whole lines: it starts with the
      indentation of its depth and ends with a newline. */
  lemma StatementIsIndentedLines(s: CNode, depth: nat)
    requires s.ExprStmt? || s.If? || s.While? || s.Routine?
    ensures IndentedLines(Render(s, depth), depth)
  {
    if s.ExprStmt? {
      IndentedLinesOf(depth, Indent(depth) + Render(s.expr, depth + 1), "\n");
    } else if s.If? {
      IfIsIndentedLines(s.cond, s.thenBlock, s.elseBlock, depth);
    } else if s.While? {
      WhileIsIndentedLines(s.cond, s.body, depth);
    } else {
      RoutineIsIndentedLines(s.title, s.params, s.body, depth);
    }
  }

  lemma IfIsIndentedLines(c: CNode, t: CNode, e: Option<CNode>, depth: nat)
    ensures IndentedLines(Render(If(c, t, e), depth), depth)
  {
    var front := Indent(depth) + "if " + Render(c, depth + 1) + " then\n" + Render(t, depth + 1) +
      (if e.Some? then Indent(depth) + "else\n" + Render(e.value, depth + 1) else "") + Indent(depth);
    IndentedLinesOf(depth, front, "end\n");
  }

  lemma WhileIsIndentedLines(c: CNode, b: CNode, depth: nat)
    ensures IndentedLines(Render(While(c, b), depth), depth)
  {
    var front := Indent(depth) + "while " + Render(c, depth + 1) + " do\n" + Render(b, depth + 1) +
      Indent(depth);
    IndentedLinesOf(depth, front, "end\n");
  }

  lemma RoutineIsIndentedLines(title: Option<string>, params: seq<string>, body: CNode, depth: nat)
    ensures IndentedLines(Render(Routine(title, params, body), depth), depth)
  {
    var front := Indent(depth) + "routine " + TitleText(title) + "(" + ParametersFrom(params, 0) + ")\n" +
      Render(body, depth + 1) + Indent(depth);
    IndentedLinesOf(depth, front, "end\n");
  }

  /** The statements of a block print one after another: a statement added at the end of a
      block adds its own text at the end of the block's. */
  lemma {:induction false} StatementsAppend(stmts: seq<CNode>, s: CNode, k: nat, depth: nat)
    requires k <= |stmts|
    ensures StatementsFrom(stmts + [s], k, depth) == StatementsFrom(stmts, k, depth) + Render(s, depth)
    decreases |stmts| - k
  {
    var longer := stmts + [s];
    if k < |stmts| {
      assert longer[k] == stmts[k];
      StatementsAppend(stmts, s, k + 1, depth);
    } else {
      assert longer[k] == s;
    }
  }

  lemma BlockAppend(stmts: seq<CNode>, s: CNode, depth: nat)
    ensures Render(Block(stmts + [s]), depth) == Render(Block(stmts), depth) + Render(s, depth)
  {
    StatementsAppend(stmts, s, 0, depth);
  }

  /** Call arguments are separated by single spaces, with none after the last: an argument added
      at the end of a non-empty list adds a space and its own text. */
  lemma {:induction false} ArgumentsAppend(args: seq<CNode>, x: CNode, k: nat, depth: nat)
    requires k < |args|
    ensures ArgumentsFrom(args + [x], k, depth) == ArgumentsFrom(args, k, depth) + " " + Render(x, depth)
    decreases |args| - k
  {
    var longer := args + [x];
    assert longer[k] == args[k];
    if k < |args| - 1 {
      ArgumentsAppend(args, x, k + 1, depth);
    } else {
      assert longer[k + 1] == x;
      assert ArgumentsFrom(longer, k + 1, depth) == Render(x, depth);
      assert ArgumentsFrom(args, k, depth) == Render(args[k], depth);
    }
  }

  lemma CallAppend(callee: string, args: seq<CNode>, x: CNode, depth: nat)
    requires args != []
    ensures Render(Call(callee, args + [x]), depth) ==
            callee + "(" + ArgumentsFrom(args, 0, depth + 1) + " " + Render(x, depth + 1) + ")"
  {
    ArgumentsAppend(args, x, 0, depth + 1);
  }

  /** No parenthesis in the text. */
  predicate Plain(text: string) {
    '(' !in text && ')' !in text
  }

  /** An expression tree whose names, literals and operators hold no parenthesis. */
  predicate PlainExpression(e: CNode) {
    match e
    case Binary(op, l, r) => Plain(op.lexeme) && PlainExpression(l) && PlainExpression(r)
    case Unary(op, x) => Plain(op.lexeme) && PlainExpression(x)
    case Call(callee, args) => Plain(callee) && forall i :: 0 <= i < |args| ==> PlainExpression(args[i])
    case Number(lexeme) => Plain(lexeme)
    case String(value) => Plain(value)
    case Variable(name) => Plain(name)
    case Error(_) => true
    case _ => false
  }

  /** As many closing parentheses in the text as opening ones. */
  predicate Balanced(text: string) {
    multiset(text)['('] == multiset(text)[')']
  }

  lemma PlainIsBalanced(text: string)
    requires Plain(text)
    ensures Balanced(text)
  {
  }

  lemma BinaryIsBalanced(l: CNode, r: CNode, op: string, left: string, right: string)
    requires Plain(op) && Balanced(left) && Balanced(right)
    ensures Balanced(Operand(l, left) + " " + op + " " + Operand(r, right))
  {
    PlainIsBalanced(op);
  }

  lemma WrappedIsBalanced(front: string, inner: string)
    requires Plain(front) && Balanced(inner)
    ensures Balanced(front + "(" + inner + ")")
  {
    PlainIsBalanced(front);
  }

  lemma UnaryIsBalanced(op: string, inner: string)
    requires Plain(op) && Balanced(inner)
    ensures Balanced("(" + op + inner + ")")
  {
    PlainIsBalanced(op);
  }

  lemma QuotedIsBalanced(value: string)
    requires Plain(value)
    ensures Balanced("\"" + value + "\"")
  {
    PlainIsBalanced(value);
  }

  lemma ArgumentIsBalanced(first: string, sep: string, rest: string)
    requires Balanced(first) && Plain(sep) && Balanced(rest)
    ensures Balanced(first + sep + rest)
  {
    PlainIsBalanced(sep);
  }

  /** The parentheses an expression prints are balanced in number: every one the printer opens
      it closes. */
  lemma {:induction false} ParenthesesBalance(e: CNode, depth: nat)
    requires PlainExpression(e)
    ensures Balanced(Render(e, depth))
    decreases e, 1
  {
    match e
    case Binary(op, l, r) =>
      ParenthesesBalance(l, depth + 1);
      ParenthesesBalance(r, depth + 1);
      BinaryIsBalanced(l, r, op.lexeme, Render(l, depth + 1), Render(r, depth + 1));
    case Unary(op, x) =>
      ParenthesesBalance(x, depth + 1);
      UnaryIsBalanced(op.lexeme, Render(x, depth + 1));
    case Call(callee, args) =>
      ArgumentParenthesesBalance(args, 0, depth + 1);
      WrappedIsBalanced(callee, ArgumentsFrom(args, 0, depth + 1));
    case Number(lexeme) =>
      PlainIsBalanced(lexeme);
    case String(value) =>
      QuotedIsBalanced(value);
    case Variable(name) =>
      PlainIsBalanced(name);
    case Error(_) =>
  }

  lemma {:induction false} ArgumentParenthesesBalance(args: seq<CNode>, k: nat, depth: nat)
    requires forall i :: 0 <= i < |args| ==> PlainExpression(args[i])
    ensures Balanced(ArgumentsFrom(args, k, depth))
    decreases args, |args| - k
  {
    if k < |args| {
      ParenthesesBalance(args[k], depth);
      ArgumentParenthesesBalance(args, k + 1, depth);
      ArgumentIsBalanced(Render(args[k], depth), if k < |args| - 1 then " " else "",
                         ArgumentsFrom(args, k + 1, depth));
    }
  }

  /** What the error check writes to standard error: `error: <message>` on a line of its own, or
      nothing. */
  function Report(found: Option<string>): string {
    if found.Some? then "error: " + found.value + "\n" else ""
  }

  /** Appending in two steps or in one gives the same text. */
  lemma Extend(before: string, text: string, piece: string)
    ensures before + text + piece == before + (text + piece)
  {
  }

  /** The printer's two output streams. */
  class Printer {
    var out: string
    var err: string

    constructor ()
      ensures out == "" && err == ""
    {
      out := "";
      err := "";
    }

    /** `ast_printer`: the error check, then the tree at depth 0 when it found no error. */
    method AstPrinter(n: CNode)
      modifies this
      ensures err == old(err) + Report(FirstError(n))
      ensures out == old(out) + (if FirstError(n).Some? then "" else Render(n, 0))
    {
      var error := ErrorPrecheck(n);
      if !error {
        Visit(n, 0);
      }
    }

    /** `ast_error_precheck`, with the else block of an if checked only when it is set: reports
        the first error node and says whether there was one. */
    method ErrorPrecheck(n: CNode) returns (error: bool)
      modifies this
      ensures error <==> FirstError(n).Some?
      ensures err == old(err) + Report(FirstError(n)) && out == old(out)
      decreases n, 1
    {
      match n
      case Error(message) =>
        err := err + ("error: " + message + "\n");
        return true;
      case Binary(_, l, r) =>
        error := ErrorPrecheck(l);
        if !error {
          assert err == old(err);
          error := ErrorPrecheck(r);
        }
      case Unary(_, x) =>
        error := ErrorPrecheck(x);
      case Call(_, args) =>
        error := ErrorPrecheckAll(args);
      case ExprStmt(e) =>
        error := ErrorPrecheck(e);
      case Block(stmts) =>
        error := ErrorPrecheckAll(stmts);
      case If(c, t, e) =>
        error := ErrorPrecheck(c);
        if !error {
          assert err == old(err);
          error := ErrorPrecheck(t);
        }
        if !error && e.Some? {
          assert err == old(err);
          error := ErrorPrecheck(e.value);
        }
      case While(c, b) =>
        error := ErrorPrecheck(c);
        if !error {
          assert err == old(err);
          error := ErrorPrecheck(b);
        }
      case Routine(_, _, body) =>
        error := ErrorPrecheck(body);
      case _ =>
        return false;
    }

    /** The loops of `ast_error_precheck` over call arguments and block statements. */
    method ErrorPrecheckAll(ns: seq<CNode>) returns (error: bool)
      modifies this
      ensures error <==> FirstErrorFrom(ns, 0).Some?
      ensures err == old(err) + Report(FirstErrorFrom(ns, 0)) && out == old(out)
      decreases ns, 0
    {
      for k := 0 to |ns|
        invariant FirstErrorFrom(ns, k) == FirstErrorFrom(ns, 0)
        invariant err == old(err) && out == old(out)
      {
        error := ErrorPrecheck(ns[k]);
        if error {
          return;
        }
      }
      return false;
    }

    /** `visit`: dispatch on the kind of node; an error node writes nothing. */
    method Visit(n: CNode, depth: nat)
      modifies this
      ensures out == old(out) + Render(n, depth) && err == old(err)
      decreases n, 1
    {
      match n
      case Number(lexeme) => out := out + lexeme;
      case String(value) => out := out + "\"" + value + "\"";
      case Variable(name) => out := out + name;
      case Binary(_, _, _) => VisitBinary(n, depth);
      case Unary(_, _) => VisitUnary(n, depth);
      case Call(_, _) => VisitCall(n, depth);
      case ExprStmt(_) => VisitStmtExpr(n, depth);
      case Block(_) => VisitBlock(n, depth);
      case If(_, _, _) => VisitIf(n, depth);
      case While(_, _) => VisitWhile(n, depth);
      case Routine(_, _, _) => VisitRoutine(n, depth);
      case Error(_) =>
    }

    /** `visit` on a binary operand, in parentheses when it is itself binary. */
    method VisitOperand(child: CNode, depth: nat)
      modifies this
      ensures out == old(out) + Operand(child, Render(child, depth)) && err == old(err)
      decreases child, 2
    {
      if child.Binary? {
        out := out + "(";
        Visit(child, depth);
        out := out + ")";
      } else {
        Visit(child, depth);
      }
    }

    /** `visit_expr_binary`. */
    method VisitBinary(n: CNode, depth: nat)
      requires n.Binary?
      modifies this
      ensures out == old(out) + Render(n, depth) && err == old(err)
      decreases n, 0
    {
      VisitOperand(n.left, depth + 1);
      out := out + " " + n.op.lexeme + " ";
      VisitOperand(n.right, depth + 1);
    }

    /** `visit_expr_unary`. */
    method VisitUnary(n: CNode, depth: nat)
      requires n.Unary?
      modifies this
      ensures out == old(out) + Render(n, depth) && err == old(err)
      decreases n, 0
    {
      out := out + "(" + n.op.lexeme;
      Visit(n.operand, depth + 1);
      out := out + ")";
    }

    /** `visit_expr_call`: the arguments one level deeper, separated by spaces. */
    method VisitCall(n: CNode, depth: nat)
      requires n.Call?
      modifies this
      ensures out == old(out) + Render(n, depth) && err == old(err)
      decreases n, 0
    {
      out := out + (n.callee + "(");
      var args := n.args;
      Extend(old(out), n.callee + "(", ArgumentsFrom(args, 0, depth + 1));
      VisitArguments(args, depth + 1);
      Extend(old(out), n.callee + "(" + ArgumentsFrom(args, 0, depth + 1), ")");
      out := out + ")";
    }

    /** The loop of `visit_expr_call`: each argument, followed by a space unless it is the last. */
    method VisitArguments(args: seq<CNode>, depth: nat)
      modifies this
      ensures out == old(out) + ArgumentsFrom(args, 0, depth) && err == old(err)
      decreases args, 2
    {
      for k := 0 to |args|
        invariant out + ArgumentsFrom(args, k, depth) == old(out) + ArgumentsFrom(args, 0, depth)
        invariant err == old(err)
      {
        ghost var before := out;
        ghost var separator := if k < |args| - 1 then " " else "";
        Visit(args[k], depth);
        if k < |args| - 1 {
          out := out + " ";
        }
        assert out == before + (Render(args[k], depth) + separator);
        Extend(before, Render(args[k], depth) + separator, ArgumentsFrom(args, k + 1, depth));
      }
    }

    /** `visit_stmt_expr`. */
    method VisitStmtExpr(n: CNode, depth: nat)
      requires n.ExprStmt?
      modifies this
      ensures out == old(out) + Render(n, depth) && err == old(err)
      decreases n, 0
    {
      out := out + Indent(depth);
      Visit(n.expr, depth + 1);
      out := out + "\n";
    }

    /** `visit_stmt_block`: the statements at the block's own depth. */
    method VisitBlock(n: CNode, depth: nat)
      requires n.Block?
      modifies this
      ensures out == old(out) + Render(n, depth) && err == old(err)
      decreases n, 0
    {
      var stmts := n.stmts;
      for k := 0 to |stmts|
        invariant out + StatementsFrom(stmts, k, depth) == old(out) + StatementsFrom(stmts, 0, depth)
        invariant err == old(err)
      {
        Visit(stmts[k], depth);
      }
    }

    /** `visit_stmt_if`. `text` is what the call has written so far. */
    method VisitIf(n: CNode, depth: nat)
      requires n.If?
      modifies this
      ensures out == old(out) + Render(n, depth) && err == old(err)
      decreases n, 0
    {
      out := out + (Indent(depth) + "if ");
      ghost var text := Indent(depth) + "if ";
      Extend(old(out), text, Render(n.cond, depth + 1));
      Visit(n.cond, depth + 1);
      text := text + Render(n.cond, depth + 1);
      assert out == old(out) + text;
      Extend(old(out), text, " then\n");
      out := out + " then\n";
      text := text + " then\n";
      assert out == old(out) + text;
      Extend(old(out), text, Render(n.thenBlock, depth + 1));
      Visit(n.thenBlock, depth + 1);
      text := text + Render(n.thenBlock, depth + 1);
      assert out == old(out) + text;
      ghost var elseText :=
        if n.elseBlock.Some? then Indent(depth) + "else\n" + Render(n.elseBlock.value, depth + 1) else "";
      Extend(old(out), text, elseText);
      VisitElse(n.elseBlock, depth);
      text := text + elseText;
      assert out == old(out) + text;
      Extend(old(out), text, Indent(depth));
      out := out + Indent(depth);
      text := text + Indent(depth);
      assert out == old(out) + text;
      Extend(old(out), text, "end\n");
      out := out + "end\n";
      text := text + "end\n";
      assert out == old(out) + text;
      assert text == Render(n, depth);
    }

    /** The else part of `visit_stmt_if`, written only when the else block is set. */
    method VisitElse(e: Option<CNode>, depth: nat)
      modifies this
      ensures out == old(out) + (if e.Some? then Indent(depth) + "else\n" + Render(e.value, depth + 1) else "")
      ensures err == old(err)
      decreases e, 2
    {
      if e.Some? {
        out := out + (Indent(depth) + "else\n");
        Visit(e.value, depth + 1);
        Extend(old(out), Indent(depth) + "else\n", Render(e.value, depth + 1));
      }
    }

    /** The loop of `visit_stmt_routine` over the parameters, separated by spaces. */
    method VisitParameters(params: seq<string>)
      modifies this
      ensures out == old(out) + ParametersFrom(params, 0) && err == old(err)
    {
      for k := 0 to |params|
        invariant out + ParametersFrom(params, k) == old(out) + ParametersFrom(params, 0)
        invariant err == old(err)
      {
        ghost var before := out;
        ghost var separator := if k < |params| - 1 then " " else "";
        out := out + params[k];
        if k < |params| - 1 {
          out := out + " ";
        }
        assert out == before + (params[k] + separator);
        Extend(before, params[k] + separator, ParametersFrom(params, k + 1));
      }
    }

    /** `visit_stmt_while`. */
    method VisitWhile(n: CNode, depth: nat)
      requires n.While?
      modifies this
      ensures out == old(out) + Render(n, depth) && err == old(err)
      decreases n, 0
    {
      out := out + Indent(depth);
      ghost var text := Indent(depth);
      assert out == old(out) + text;
      Extend(old(out), text, "while ");
      out := out + "while ";
      text := text + "while ";
      assert out == old(out) + text;
      Extend(old(out), text, Render(n.cond, depth + 1));
      Visit(n.cond, depth + 1);
      text := text + Render(n.cond, depth + 1);
      assert out == old(out) + text;
      Extend(old(out), text, " do\n");
      out := out + " do\n";
      text := text + " do\n";
      assert out == old(out) + text;
      Extend(old(out), text, Render(n.body, depth + 1));
      Visit(n.body, depth + 1);
      text := text + Render(n.body, depth + 1);
      assert out == old(out) + text;
      Extend(old(out), text, Indent(depth));
      out := out + Indent(depth);
      text := text + Indent(depth);
      assert out == old(out) + text;
      Extend(old(out), text, "end\n");
      out := out + "end\n";
      text := text + "end\n";
      assert out == old(out) + text;
    }

    /** `visit_stmt_routine`: the name, the parameters separated by spaces, then the body. */
    method VisitRoutine(n: CNode, depth: nat)
      requires n.Routine?
      modifies this
      ensures out == old(out) + Render(n, depth) && err == old(err)
      decreases n, 0
    {
      out := out + (Indent(depth) + "routine " + TitleText(n.title) + "(");
      ghost var text := Indent(depth) + "routine " + TitleText(n.title) + "(";
      var params := n.params;
      Extend(old(out), text, ParametersFrom(params, 0));
      VisitParameters(params);
      text := text + ParametersFrom(params, 0);
      assert out == old(out) + text;
      Extend(old(out), text, ")\n");
      out := out + ")\n";
      text := text + ")\n";
      assert out == old(out) + text;
      Extend(old(out), text, Render(n.body, depth + 1));
      Visit(n.body, depth + 1);
      text := text + Render(n.body, depth + 1);
      assert out == old(out) + text;
      Extend(old(out), text, Indent(depth));
      out := out + Indent(depth);
      text := text + Indent(depth);
      assert out == old(out) + text;
      Extend(old(out), text, "end\n");
      out := out + "end\n";
      text := text + "end\n";
      assert out == old(out) + text;
    }
  }
}
