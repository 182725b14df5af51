/** Tokens of the language: the `TokenType` enumeration and the `Token` record with its
    equality, hash, `str` and `repr` (blast/token.py). */
module Tokens {
  import opened Text

  /** The token kinds, in declaration order. */
  datatype TokenType =
    | EOF
    | NUMBER | STRING | IDENTIFIER
    | PLUS | MINUS | MUL | DIV | MOD | EXP
    | COLON
    | EQ | NE | LT | LE | GT | GE
    | PERIOD
    | LPAREN | RPAREN
    | IF | THEN | ELSE | END
    | WHILE | DO
    | ROUTINE

  /** Every member, in the order the enumeration declares it. */
  const DeclarationOrder: seq<TokenType> :=
    [EOF, NUMBER, STRING, IDENTIFIER, PLUS, MINUS, MUL, DIV, MOD, EXP, COLON,
     EQ, NE, LT, LE, GT, GE, PERIOD, LPAREN, RPAREN, IF, THEN, ELSE, END, WHILE, DO, ROUTINE]

  /** The integer value of each member. EOF is set to -1; every later member is `auto()`,
      which continues from the previous member's value, so NUMBER is 0 and ROUTINE is 25. */
  function Ordinal(t: TokenType): int {
    match t
    case EOF => -1
    case NUMBER => 0
    case STRING => 1
    case IDENTIFIER => 2
    case PLUS => 3
    case MINUS => 4
    case MUL => 5
    case DIV => 6
    case MOD => 7
    case EXP => 8
    case COLON => 9
    case EQ => 10
    case NE => 11
    case LT => 12
    case LE => 13
    case GT => 14
    case GE => 15
    case PERIOD => 16
    case LPAREN => 17
    case RPAREN => 18
    case IF => 19
    case THEN => 20
    case ELSE => 21
    case END => 22
    case WHILE => 23
    case DO => 24
    case ROUTINE => 25
  }

  /** EOF is -1 and each following member is one more than the member declared before it. */
  lemma OrdinalsFollowDeclarationOrder()
    ensures |DeclarationOrder| == 27 && Ordinal(DeclarationOrder[0]) == -1
    ensures forall k :: 1 <= k < |DeclarationOrder| ==>
      Ordinal(DeclarationOrder[k]) == Ordinal(DeclarationOrder[k - 1]) + 1
  {
  }

  /** The declaration order lists every kind, and no two kinds share a value. */
  lemma OrdinalsAreDistinct(a: TokenType, b: TokenType)
    ensures a in DeclarationOrder
    ensures Ordinal(a) == Ordinal(b) ==> a == b
  {
    OrdinalIdentifiesKind(a);
    OrdinalIdentifiesKind(b);
  }

  /** Reading a kind back from its value (the inverse of `Ordinal`). */
  function KindOfOrdinal(n: int): TokenType
    requires -1 <= n <= 25
  {
    DeclarationOrder[n + 1]
  }

  lemma OrdinalIdentifiesKind(t: TokenType)
    ensures -1 <= Ordinal(t) <= 25 && KindOfOrdinal(Ordinal(t)) == t
  {
  }

  /** A token: its kind and the text it was read from. */
  datatype Token = Token(kind: TokenType, lexeme: string)

  /** `__eq__`: both the kind and the lexeme agree. */
  predicate Equals(a: Token, b: Token) {
    a.kind == b.kind && a.lexeme == b.lexeme
  }

  /** `__eq__` is exactly structural equality of tokens. */
  lemma EqualsIsStructural(a: Token, b: Token)
    ensures Equals(a, b) <==> a == b
  {
  }

  /** `__repr__`: `<kind: lexeme>`, where an f-string formats the IntEnum kind as its integer. */
  function Repr(t: Token): string {
    "<" + IntToString(Ordinal(t.kind)) + ": " + t.lexeme + ">"
  }

  /** `__str__`: the lexeme, which is also what `repr` shows after the colon. */
  function Str(t: Token): (s: string)
    ensures Repr(t) == "<" + IntToString(Ordinal(t.kind)) + ": " + s + ">"
  {
    t.lexeme
  }

  /** `repr` loses nothing: two tokens with the same repr are the same token, even when a lexeme
      itself contains ": " (the integer in front of the first colon has no colon of its own). */
  lemma {:induction false} ReprInjective(a: Token, b: Token)
    requires Repr(a) == Repr(b)
    ensures a == b
  {
    IntToStringHasNoColon(Ordinal(a.kind));
    IntToStringHasNoColon(Ordinal(b.kind));
    SplitAtFirstColon(IntToString(Ordinal(a.kind)), a.lexeme, IntToString(Ordinal(b.kind)), b.lexeme);
    IntToStringInjective(Ordinal(a.kind), Ordinal(b.kind));
    OrdinalIdentifiesKind(a.kind);
    OrdinalIdentifiesKind(b.kind);
  }

  /** `<n: x>` determines `n` and `x` when `n` has no colon. */
  lemma SplitAtFirstColon(n1: string, x1: string, n2: string, x2: string)
    requires ':' !in n1 && ':' !in n2
    requires "<" + n1 + ": " + x1 + ">" == "<" + n2 + ": " + x2 + ">"
    ensures n1 == n2 && x1 == x2
  {
    var r := "<" + n1 + ": " + x1 + ">";
    var r2 := "<" + n2 + ": " + x2 + ">";
    assert forall i :: 0 <= i < |n1| ==> r[1 + i] == n1[i];
    assert forall i :: 0 <= i < |n2| ==> r2[1 + i] == n2[i];
    assert forall i :: 0 <= i < |n1| ==> n1[i] != ':';
    assert forall i :: 0 <= i < |n2| ==> n2[i] != ':';
    assert r[1 + |n1|] == ':' && r2[1 + |n2|] == ':';
    if |n1| != |n2| {
      assert false;
    }
    assert |n1| == |n2|;
    assert n1 == r[1..1 + |n1|] == r2[1..1 + |n2|] == n2;
    assert x1 == r[3 + |n1|..|r| - 1] == r2[3 + |n2|..|r2| - 1] == x2;
  }

  // CPython's hash of a 2-tuple (the xxHash-based `tuplehash` on 64-bit builds).
  const Word: nat := 0x1_0000_0000_0000_0000
  const XXPrime1: nat := 11400714785074694791
  const XXPrime2: nat := 14029467366897019727
  const XXPrime5: nat := 2870177450012600261
  /** `2 ^ (XXPrime5 ^ 3527539)`: the length of a pair, mixed into the accumulator at the end. */
  const PairLengthMix: nat := 2870177450013471924

  /** `hash(n)` for an int: reduced modulo 2^61 - 1 with the sign kept; -1 is reserved, so it becomes -2. */
  function IntHash(n: int): (h: int)
    ensures h != -1
  {
    var m := 0x1FFF_FFFF_FFFF_FFFF;
    var r := if n >= 0 then n % m else -((-n) % m);
    if r == -1 then -2 else r
  }

  /** One round of `tuplehash` for an element whose hash is `lane`. */
  function HashRound(acc: nat, lane: int): (r: nat)
    ensures r < Word
  {
    var a := (acc + (lane % Word) * XXPrime2) % Word;
    var rotated := (a * 0x8000_0000) % Word + a / 0x2_0000_0000;
    (rotated * XXPrime1) % Word
  }

  /** `__hash__`: `hash((type, lexeme))`. Python salts string hashes per process, so the string
      hash is a parameter; it never returns -1. */
  function Hash(t: Token, strHash: string -> int): int
    requires strHash(t.lexeme) != -1
  {
    var acc := HashRound(HashRound(XXPrime5, IntHash(Ordinal(t.kind))), strHash(t.lexeme));
    var u := (acc + PairLengthMix) % Word;
    if u == Word - 1 then 1546275796
    else if u >= Word / 2 then u - Word
    else u
  }

  /** Tokens that `__eq__` calls equal hash equally, and like every CPython hash the result is never -1. */
  lemma HashAgreesWithEquals(a: Token, b: Token, strHash: string -> int)
    requires strHash(a.lexeme) != -1 && Equals(a, b)
    ensures strHash(b.lexeme) != -1 && Hash(a, strHash) == Hash(b, strHash)
    ensures Hash(a, strHash) != -1
  {
  }
}
