/** The syntax tree of the Python interpreter (blast/ast.py): a closed set of expression and
    statement nodes, the visitor method each node's `accept` calls, and each node's `repr`. */
module Ast {
  import opened Wrappers
  import opened Text
  import opened Tokens

  /** The value a NumberExprAST stores: an int, or the float written as `whole.frac` (kept as
      its decimal digits, so no rounding is modelled). */
  datatype NumberValue = IntNumber(i: int) | FloatNumber(whole: nat, frac: string)

  /** The node classes. Expressions: Binary, Unary, Number, String, Variable. Statements:
      ExprStmt, Block, If (with an optional else block) and While. There is no call or routine
      node. Constructors store their arguments as given. */
  datatype Node =
    | Binary(op: Token, lhs: Node, rhs: Node)
    | Unary(op: Token, expr: Node)
    | Number(num: NumberValue)
    | Str(text: string)
    | Variable(name: string)
    | ExprStmt(expr: Node)
    | Block(stmts: seq<Node>)
    | If(cond: Node, thenBlock: Node, elseBlock: Option<Node>)
    | While(cond: Node, body: Node)

  predicate IsExpression(n: Node) {
    n.Binary? || n.Unary? || n.Number? || n.Str? || n.Variable?
  }

  /** The visitor method `accept` calls on each kind of node: `visit_`, the kind, then `_expr` or
      `_stmt`. */
  function VisitorMethod(n: Node): (name: string)
    ensures |name| >= 13 && name[..6] == "visit_"
    ensures IsExpression(n) ==> name[|name| - 5..] == "_expr"
    ensures !IsExpression(n) ==> name[|name| - 5..] == "_stmt"
  {
    var kind := match n
      case Binary(_, _, _) => "binary"
      case Unary(_, _) => "unary"
      case Number(_) => "number"
      case Str(_) => "string"
      case Variable(_) => "variable"
      case ExprStmt(_) => "expr"
      case Block(_) => "block"
      case If(_, _, _) => "if"
      case While(_, _) => "while";
    var suffix := if IsExpression(n) then "_expr" else "_stmt";
    var name := "visit_" + kind + suffix;
    assert name[|name| - 5..] == suffix;
    name
  }

  /** Each kind of node has its own visitor method: `accept` of two nodes calls the same method
      only when they are the same kind of node. */
  lemma VisitorMethodIdentifiesKind(a: Node, b: Node)
    requires VisitorMethod(a) == VisitorMethod(b)
    ensures a.Binary? == b.Binary? && a.Unary? == b.Unary? && a.Number? == b.Number?
    ensures a.Str? == b.Str? && a.Variable? == b.Variable? && a.ExprStmt? == b.ExprStmt?
    ensures a.Block? == b.Block? && a.If? == b.If? && a.While? == b.While?
  {
    var x, y := VisitorMethod(a), VisitorMethod(b);
    assert |x| == |y|;
    assert x[6] == y[6] && x[7] == y[7];
  }

  /** Digits of a fraction without its trailing zeros, keeping at least one digit. */
  function StripTrailingZeros(frac: string): (r: string)
    ensures |r| >= 1 && |r| <= |frac| + 1
    ensures |r| > 1 ==> r[|r| - 1] != '0'
    ensures (forall i | 0 <= i < |frac| :: frac[i] == '0') ==> r == "0"
    ensures (exists i | 0 <= i < |frac| :: frac[i] != '0') ==>
      r <= frac && r[|r| - 1] != '0' && forall i | |r| <= i < |frac| :: frac[i] == '0'
  {
    if frac == [] then "0"
    else if frac[|frac| - 1] == '0' then StripTrailingZeros(frac[..|frac| - 1])
    else frac
  }

  /** `repr` of the stored number: the int's digits, or the float as `whole.frac` without
      trailing zeros in the fraction (`4.0`, `1.5`). This is Python's positional form; the
      exponent form Python uses below 1e-4 and from 1e16 up is not modelled. */
  function NumberRepr(v: NumberValue): string {
    match v
    case IntNumber(i) => IntToString(i)
    case FloatNumber(whole, frac) => NatToString(whole) + "." + StripTrailingZeros(frac)
  }

  const Backslash: char := 92 as char
  const SingleQuote: char := 39 as char
  const DoubleQuote: char := 34 as char

  function HexDigit(d: nat): (c: char)
    requires d < 16
  {
    if d < 10 then DigitChar(d) else (('a' as int) + d - 10) as char
  }

  function HexValue(c: char): Option<nat> {
    if IsDigit(c) then Some(DigitValue(c))
    else if 'a' <= c <= 'f' then Some(c as int - 'a' as int + 10)
    else None
  }

  /** The quote `repr` puts around a str: single, unless the text has a single quote and no
      double quote. */
  function QuoteFor(s: string): (q: char)
    ensures q == SingleQuote || q == DoubleQuote
  {
    if SingleQuote in s && DoubleQuote !in s then DoubleQuote else SingleQuote
  }

  /** How `repr` writes one character inside quotes `q`: backslash and the quote itself are
      escaped, tab, newline and carriage return by letter, other control characters as `\xhh`. */
  function Escape(c: char, q: char): (e: string)
    ensures |e| >= 1
  {
    if c == Backslash || c == q then [Backslash, c]
    else if c == '\t' then [Backslash, 't']
    else if c == '\n' then [Backslash, 'n']
    else if c == '\r' then [Backslash, 'r']
    else if c as int < 32 || c as int == 127 then [Backslash, 'x', HexDigit(c as int / 16), HexDigit(c as int % 16)]
    else [c]
  }

  function EscapeAll(s: string, q: char): string {
    if s == [] then [] else Escape(s[0], q) + EscapeAll(s[1..], q)
  }

  /** Python's `repr` of a str (ASCII characters are modelled; the rest are written as they are). */
  function StrRepr(s: string): string {
    var q := QuoteFor(s);
    [q] + EscapeAll(s, q) + [q]
  }

  /** Reads an escaped body back: the inverse of `EscapeAll`. */
  function Unescape(t: string, q: char): Option<string>
    decreases |t|
  {
    if t == [] then Some([])
    else if t[0] == q then None
    else if t[0] != Backslash then
      match Unescape(t[1..], q)
      case None => None
      case Some(r) => Some([t[0]] + r)
    else if |t| < 2 then None
    else
      var e := t[1];
      var rest := t[2..];
      if e == Backslash || e == q then
        match Unescape(rest, q) case None => None case Some(r) => Some([e] + r)
      else if e == 't' || e == 'n' || e == 'r' then
        var c := if e == 't' then '\t' else if e == 'n' then '\n' else '\r';
        match Unescape(rest, q) case None => None case Some(r) => Some([c] + r)
      else if e == 'x' && |t| >= 4 && HexValue(t[2]).Some? && HexValue(t[3]).Some? then
        var c := (HexValue(t[2]).value * 16 + HexValue(t[3]).value) as char;
        match Unescape(t[4..], q) case None => None case Some(r) => Some([c] + r)
      else None
  }

  /** Reads a quoted repr back. */
  function Unquote(r: string): Option<string> {
    if |r| < 2 || r[0] != r[|r| - 1] || (r[0] != SingleQuote && r[0] != DoubleQuote) then None
    else Unescape(r[1..|r| - 1], r[0])
  }

  lemma HexRoundTrip(d: nat)
    requires d < 16
    ensures HexValue(HexDigit(d)) == Some(d)
  {
  }

  /** One escaped character is read back as that character, whatever follows it. */
  lemma EscapeOneRoundTrip(c: char, q: char, rest: string)
    requires q == SingleQuote || q == DoubleQuote
    ensures Unescape(Escape(c, q) + rest, q) ==
      match Unescape(rest, q) case None => None case Some(r) => Some([c] + r)
  {
    var t := Escape(c, q) + rest;
    if c == Backslash || c == q {
      assert t[2..] == rest;
    } else if c == '\t' || c == '\n' || c == '\r' {
      assert t[2..] == rest;
    } else if c as int < 32 || c as int == 127 {
      HexRoundTrip(c as int / 16);
      HexRoundTrip(c as int % 16);
      assert t[4..] == rest;
    } else {
      assert t[1..] == rest;
    }
  }

  /** Escaping loses nothing. */
  lemma {:induction false} EscapeAllRoundTrip(s: string, q: char)
    requires q == SingleQuote || q == DoubleQuote
    ensures Unescape(EscapeAll(s, q), q) == Some(s)
  {
    if s != [] {
      EscapeOneRoundTrip(s[0], q, EscapeAll(s[1..], q));
      EscapeAllRoundTrip(s[1..], q);
      assert [s[0]] + s[1..] == s;
    }
  }

  /** `repr` of a str loses nothing: reading it back gives the text. */
  lemma StrReprRoundTrip(s: string)
    ensures Unquote(StrRepr(s)) == Some(s)
  {
    var q := QuoteFor(s);
    var r := StrRepr(s);
    assert r[1..|r| - 1] == EscapeAll(s, q);
    EscapeAllRoundTrip(s, q);
  }

  /** `repr(list)`: the items' reprs, comma separated, in square brackets. */
  function ListRepr(items: seq<string>): string {
    "[" + Join(items) + "]"
  }

  function Join(items: seq<string>): string {
    if items == [] then []
    else if |items| == 1 then items[0]
    else items[0] + ", " + Join(items[1..])
  }

  /** `__repr__` of each node: angle brackets around the op token's repr and the children's
      reprs, separated by single spaces; the missing else block shows as `None`. */
  function Repr(n: Node): string {
    match n
    case Binary(op, lhs, rhs) => "<" + Tokens.Repr(op) + " " + Repr(lhs) + " " + Repr(rhs) + ">"
    case Unary(op, e) => "<" + Tokens.Repr(op) + " " + Repr(e) + ">"
    case Number(v) => "<" + NumberRepr(v) + ">"
    case Str(v) => "<" + StrRepr(v) + ">"
    case Variable(name) => "<" + StrRepr(name) + ">"
    case ExprStmt(e) => "<" + Repr(e) + ">"
    case Block(stmts) => "<" + ListRepr(ReprAll(stmts)) + ">"
    case If(c, t, e) =>
      "<" + Repr(c) + " " + Repr(t) + " " + (if e.None? then "None" else Repr(e.value)) + ">"
    case While(c, body) => "<" + Repr(c) + " " + Repr(body) + ">"
  }

  function ReprAll(stmts: seq<Node>): (r: seq<string>)
    ensures |r| == |stmts|
    ensures forall i | 0 <= i < |stmts| :: r[i] == Repr(stmts[i])
    decreases stmts
  {
    if stmts == [] then [] else [Repr(stmts[0])] + ReprAll(stmts[1..])
  }
}
