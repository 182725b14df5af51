/** The display names of token kinds in the C port (src/token.c): a table of key-value pairs and
    a lookup that returns the value of the first entry whose key is the kind asked for. */
module TokenNames {
  import opened Tokens
  import Lexing

  /** `enum token_type`: the C enumeration numbers its members from 0 in declaration order,
      END_OF_FILE first. The names `TOKEN_X` used in src/token.c and src/parser.c are read as
      this enumeration's `X`. */
  function EnumValue(k: TokenType): nat {
    match k
    case EOF => 0
    case NUMBER => 1
    case STRING => 2
    case IDENTIFIER => 3
    case PLUS => 4
    case MINUS => 5
    case MUL => 6
    case DIV => 7
    case MOD => 8
    case EXP => 9
    case COLON => 10
    case EQ => 11
    case NE => 12
    case LT => 13
    case LE => 14
    case GT => 15
    case GE => 16
    case PERIOD => 17
    case LPAREN => 18
    case RPAREN => 19
    case IF => 20
    case THEN => 21
    case ELSE => 22
    case END => 23
    case WHILE => 24
    case DO => 25
    case ROUTINE => 26
  }

  /** The C enumeration lists the kinds in the order of the Python one, so each C value is one
      more than the Python value, and no two kinds share one. */
  lemma EnumValueFollowsPythonOrder(k: TokenType, other: TokenType)
    ensures EnumValue(k) == Ordinal(k) + 1
    ensures EnumValue(k) == EnumValue(other) ==> k == other
  {
    OrdinalsAreDistinct(k, other);
  }

  /** `struct key_value_pair`. */
  datatype KeyValuePair = KeyValuePair(key: int, value: string)

  /** The `i`-th entry of `TOKEN_TYPE_STR`. `<` and `>` come before `<=` and `>=` here, unlike in
      the enumeration. */
  function Entry(i: nat): KeyValuePair
    requires i < 27
  {
    match i
    case 0 => KeyValuePair(EnumValue(EOF), "EOF")
    case 1 => KeyValuePair(EnumValue(NUMBER), "<number>")
    case 2 => KeyValuePair(EnumValue(STRING), "<string>")
    case 3 => KeyValuePair(EnumValue(IDENTIFIER), "<identifier>")
    case 4 => KeyValuePair(EnumValue(PLUS), "+")
    case 5 => KeyValuePair(EnumValue(MINUS), "-")
    case 6 => KeyValuePair(EnumValue(MUL), "*")
    case 7 => KeyValuePair(EnumValue(DIV), "/")
    case 8 => KeyValuePair(EnumValue(MOD), "%")
    case 9 => KeyValuePair(EnumValue(EXP), "**")
    case 10 => KeyValuePair(EnumValue(COLON), ":")
    case 11 => KeyValuePair(EnumValue(EQ), "=")
    case 12 => KeyValuePair(EnumValue(NE), "<>")
    case 13 => KeyValuePair(EnumValue(LT), "<")
    case 14 => KeyValuePair(EnumValue(GT), ">")
    case 15 => KeyValuePair(EnumValue(LE), "<=")
    case 16 => KeyValuePair(EnumValue(GE), ">=")
    case 17 => KeyValuePair(EnumValue(PERIOD), ".")
    case 18 => KeyValuePair(EnumValue(LPAREN), "^(")
    case 19 => KeyValuePair(EnumValue(RPAREN), "^)")
    case 20 => KeyValuePair(EnumValue(IF), "if")
    case 21 => KeyValuePair(EnumValue(THEN), "then")
    case 22 => KeyValuePair(EnumValue(ELSE), "else")
    case 23 => KeyValuePair(EnumValue(END), "end")
    case 24 => KeyValuePair(EnumValue(WHILE), "while")
    case 25 => KeyValuePair(EnumValue(DO), "do")
    case _ => KeyValuePair(EnumValue(ROUTINE), "routine")
  }

  /** `TOKEN_TYPE_STR`. */
  function Table(): (t: seq<KeyValuePair>)
    ensures |t| == 27
  {
    seq(27, i requires 0 <= i < 27 => Entry(i))
  }

  /** The value of the first entry from the `i`-th on whose key is `key`, or "UNKNOWN" when there
      is none. */
  function FirstValue(table: seq<KeyValuePair>, key: int, i: nat): string
    decreases |table| - i
  {
    if i >= |table| then "UNKNOWN"
    else if table[i].key == key then table[i].value
    else FirstValue(table, key, i + 1)
  }

  /** What `token_type_to_string(type)` returns. */
  function Name(t: int): string {
    FirstValue(Table(), t, 0)
  }

  /** `token_type_to_string`: the counting loop over the table with its early return. */
  method TokenTypeToString(t: int) returns (s: string)
    ensures s == Name(t)
  {
    var table := Table();
    for i := 0 to |table|
      invariant FirstValue(table, t, 0) == FirstValue(table, t, i)
    {
      if table[i].key == t {
        return table[i].value;
      }
    }
    return "UNKNOWN";
  }

  /** Where an entry sits given its key: the keys are 0 to 26 in order, except that 14 and 15
      trade places. */
  function Slot(key: int): int {
    if key == 14 then 15 else if key == 15 then 14 else key
  }

  lemma SlotsOfFirstEntries()
    ensures forall i :: 0 <= i < 10 ==> Slot(Entry(i).key) == i
  {
    forall i | 0 <= i < 10
      ensures Slot(Entry(i).key) == i
    {
    }
  }

  lemma SlotsOfOperatorEntries()
    ensures forall i :: 10 <= i < 17 ==> Slot(Entry(i).key) == i
  {
    forall i | 10 <= i < 17
      ensures Slot(Entry(i).key) == i
    {
    }
  }

  lemma SlotsOfPunctuationEntries()
    ensures forall i :: 17 <= i < 22 ==> Slot(Entry(i).key) == i
  {
    forall i | 17 <= i < 22
      ensures Slot(Entry(i).key) == i
    {
    }
  }

  lemma SlotsOfKeywordEntries()
    ensures forall i :: 22 <= i < 27 ==> Slot(Entry(i).key) == i
  {
    forall i | 22 <= i < 27
      ensures Slot(Entry(i).key) == i
    {
    }
  }

  /** Each entry sits at the slot of its key. */
  lemma SlotsAreIndices()
    ensures forall i :: 0 <= i < 27 ==> Slot(Entry(i).key) == i
  {
    SlotsOfFirstEntries();
    SlotsOfOperatorEntries();
    SlotsOfPunctuationEntries();
    SlotsOfKeywordEntries();
  }

  /** The keys of the table are pairwise distinct. */
  lemma KeysAreDistinct()
    ensures forall i, j :: 0 <= i < j < |Table()| ==> Table()[i].key != Table()[j].key
  {
    SlotsAreIndices();
    forall i, j | 0 <= i < j < |Table()|
      ensures Table()[i].key != Table()[j].key
    {
      assert Slot(Entry(i).key) != Slot(Entry(j).key);
    }
  }

  /** Where the first entry with a key sits, the value found is that entry's. */
  lemma {:induction false} FirstValueFinds(table: seq<KeyValuePair>, key: int, j: nat, i: nat)
    requires j <= i < |table| && table[i].key == key
    requires forall m :: j <= m < i ==> table[m].key != key
    ensures FirstValue(table, key, j) == table[i].value
    decreases i - j
  {
    if j < i {
      FirstValueFinds(table, key, j + 1, i);
    }
  }

  /** With no entry for a key, the lookup gives "UNKNOWN". */
  lemma {:induction false} FirstValueMisses(table: seq<KeyValuePair>, key: int, j: nat)
    requires forall m :: j <= m < |table| ==> table[m].key != key
    ensures FirstValue(table, key, j) == "UNKNOWN"
    decreases |table| - j
  {
    if j < |table| {
      FirstValueMisses(table, key, j + 1);
    }
  }

  /** The keys are pairwise distinct, so the order of the scan does not matter: the key of any
      entry gives that entry's value. */
  lemma EntryIsFound(i: nat)
    requires i < 27
    ensures Name(Entry(i).key) == Entry(i).value
  {
    KeysAreDistinct();
    FirstValueFinds(Table(), Entry(i).key, 0, i);
  }

  /** A number is a key exactly when it is a value of the enumeration, 0 to 26: everything else
      is named "UNKNOWN", and every kind has a name of its own. */
  lemma UnknownOutsideEnumeration(t: int)
    ensures (t < 0 || t > 26) <==> Name(t) == "UNKNOWN"
  {
    SlotsAreIndices();
    if t < 0 || t > 26 {
      forall m | 0 <= m < |Table()|
        ensures Table()[m].key != t
      {
        assert Slot(Entry(m).key) == m;
      }
      FirstValueMisses(Table(), t, 0);
    } else {
      var i := Slot(t);
      assert Slot(Entry(i).key) == i;
      EntryIsFound(i);
    }
  }

  /** Arithmetic operators and `:` are named by their spelling, the one the Python scanner matches. */
  lemma ArithmeticOperatorNames(k: TokenType)
    requires k in {PLUS, MINUS, MUL, DIV, MOD, EXP, COLON}
    ensures Name(EnumValue(k)) == Lexing.FixedText(k).value
  {
    var i := EnumValue(k);
    EntryIsFound(i);
  }

  /** Comparison operators are named by their spelling: `=`, `<>`, `<`, `<=`, `>`, `>=`. */
  lemma ComparisonNames(k: TokenType)
    requires k in {EQ, NE, LT, LE, GT, GE}
    ensures Name(EnumValue(k)) == Lexing.FixedText(k).value
  {
    var i := Slot(EnumValue(k));
    EntryIsFound(i);
  }

  /** `.` is named by its spelling, while the parentheses are named `^(` and `^)`. */
  lemma PunctuationNames()
    ensures Name(EnumValue(PERIOD)) == "."
    ensures Name(EnumValue(LPAREN)) == "^(" && Name(EnumValue(RPAREN)) == "^)"
  {
    EntryIsFound(17);
    EntryIsFound(18);
    EntryIsFound(19);
  }

  /** Keywords are named by their spelling, `routine` included. */
  lemma KeywordNames(k: TokenType)
    requires k in {IF, THEN, ELSE, END, WHILE, DO, ROUTINE}
    ensures Name(EnumValue(k)) == if k == ROUTINE then "routine" else Lexing.FixedText(k).value
  {
    var i := EnumValue(k);
    EntryIsFound(i);
  }

  /** The kinds that are no operator or keyword have descriptive names. */
  lemma OtherKindNames()
    ensures Name(EnumValue(EOF)) == "EOF" && Name(EnumValue(NUMBER)) == "<number>"
    ensures Name(EnumValue(STRING)) == "<string>" && Name(EnumValue(IDENTIFIER)) == "<identifier>"
  {
    EntryIsFound(0);
    EntryIsFound(1);
    EntryIsFound(2);
    EntryIsFound(3);
  }
}
