/** The lexer (blast/scanner.py): an ordered table of patterns tried at the cursor, the first
    one that matches wins, and whitespace is skipped before each token. */
module Lexing {
  import opened Wrappers
  import opened Text
  import opened Tokens

  /** The keys of `Scanner.PATTERNS`, in the order the table is tried. ROUTINE and EOF have no
      pattern, so `routine` is read as an identifier and no EOF token is ever produced. */
  function PatternOrder(): seq<TokenType> {
    seq(25, i => Entry(i))
  }

  /** Entry `i` of that table. */
  function Entry(i: int): TokenType {
    match i
    case 0 => NUMBER case 1 => STRING
    case 2 => PLUS case 3 => MINUS case 4 => EXP case 5 => MUL case 6 => DIV case 7 => MOD
    case 8 => COLON
    case 9 => NE case 10 => LE case 11 => GE case 12 => LT case 13 => GT case 14 => EQ
    case 15 => PERIOD case 16 => LPAREN case 17 => RPAREN
    case 18 => IF case 19 => THEN case 20 => ELSE case 21 => END case 22 => WHILE case 23 => DO
    case _ => IDENTIFIER
  }

  /** The text matched by the pattern of an operator, punctuation or keyword kind; the other
      kinds have no fixed text. */
  function FixedText(k: TokenType): (s: Option<string>)
    ensures s.Some? ==> 1 <= |s.value| <= 5
  {
    match k
    case PLUS => Some("+")
    case MINUS => Some("-")
    case EXP => Some("**")
    case MUL => Some("*")
    case DIV => Some("/")
    case MOD => Some("%")
    case COLON => Some(":")
    case NE => Some("<>")
    case LE => Some("<=")
    case GE => Some(">=")
    case LT => Some("<")
    case GT => Some(">")
    case EQ => Some("=")
    case PERIOD => Some(".")
    case LPAREN => Some("(")
    case RPAREN => Some(")")
    case IF => Some("if")
    case THEN => Some("then")
    case ELSE => Some("else")
    case END => Some("end")
    case WHILE => Some("while")
    case DO => Some("do")
    case _ => None
  }

  /** A successful `re.match`: the captured group and the end of the whole match. */
  datatype Match = Match(lexeme: string, length: nat)

  /** Length of the longest prefix of decimal digits (`\d+` is greedy). */
  function DigitRun(s: string): (n: nat)
    ensures n <= |s|
    ensures n < |s| ==> !IsDigit(s[n])
  {
    if s == [] || !IsDigit(s[0]) then 0 else 1 + DigitRun(s[1..])
  }

  lemma {:induction false} DigitRunIsDigits(s: string)
    ensures forall i :: 0 <= i < DigitRun(s) ==> IsDigit(s[i])
  {
    if s != [] && IsDigit(s[0]) {
      DigitRunIsDigits(s[1..]);
      assert forall i :: 1 <= i < DigitRun(s) ==> s[i] == s[1..][i - 1];
    }
  }

  /** Length of the longest prefix of word characters (`\w+` is greedy). */
  function WordRun(s: string): (n: nat)
    ensures n <= |s|
    ensures n < |s| ==> !IsWordChar(s[n])
  {
    if s == [] || !IsWordChar(s[0]) then 0 else 1 + WordRun(s[1..])
  }

  lemma {:induction false} WordRunIsWordChars(s: string)
    ensures forall i :: 0 <= i < WordRun(s) ==> IsWordChar(s[i])
  {
    if s != [] && IsWordChar(s[0]) {
      WordRunIsWordChars(s[1..]);
      assert forall i :: 1 <= i < WordRun(s) ==> s[i] == s[1..][i - 1];
    }
  }

  /** Position of the first double quote, or the length when there is none (`[^"]*`). */
  function QuoteFreeRun(s: string): (n: nat)
    ensures n <= |s|
    ensures n < |s| ==> s[n] == '"'
  {
    if s == [] || s[0] == '"' then 0 else 1 + QuoteFreeRun(s[1..])
  }

  /** `(\d+(?:\.\d+)?)`: digits, then a point and digits only when at least one digit follows. */
  function MatchNumber(s: string): Option<Match> {
    if s == [] || !IsDigit(s[0]) then None
    else
    var d := DigitRun(s);
    if d < |s| && s[d] == '.' && DigitRun(s[d + 1..]) > 0 then
      var f := DigitRun(s[d + 1..]);
      Some(Match(s[..d + 1 + f], d + 1 + f))
    else Some(Match(s[..d], d))
  }

  /** `"([^"]*)"`: the group excludes the quotes, the match includes them. */
  function MatchString(s: string): Option<Match> {
    if s == [] || s[0] != '"' then None
    else
      var q := QuoteFreeRun(s[1..]);
      if q == |s| - 1 then None else Some(Match(s[1..1 + q], q + 2))
  }

  /** `(\w+)`. */
  function MatchIdentifier(s: string): Option<Match> {
    if s == [] || !IsWordChar(s[0]) then None else Some(Match(s[..WordRun(s)], WordRun(s)))
  }

  /** `re.match(PATTERNS[k], s)`: the pattern of kind `k` anchored at the start of `s`
      (None for EOF and ROUTINE, which have no pattern). */
  function MatchPattern(k: TokenType, s: string): Option<Match> {
    if k == NUMBER then MatchNumber(s)
    else if k == STRING then MatchString(s)
    else if k == IDENTIFIER then MatchIdentifier(s)
    else match FixedText(k)
      case None => None
      case Some(t) => if t <= s then Some(Match(t, |t|)) else None
  }

  /** The source text a token was read from: the lexeme, with the quotes put back for a string. */
  function Spelling(t: Token): string {
    if t.kind == STRING then "\"" + t.lexeme + "\"" else t.lexeme
  }

  /** What a match consumes: the token's spelling, at least one character, ending in a
      character that is not whitespace. */
  predicate ConsumesSpelling(k: TokenType, s: string, m: Match) {
    1 <= m.length <= |s| && s[..m.length] == Spelling(Token(k, m.lexeme)) && !IsSpace(s[m.length - 1])
  }

  lemma NumberMatchConsumesSpelling(s: string)
    requires MatchNumber(s).Some?
    ensures ConsumesSpelling(NUMBER, s, MatchNumber(s).value)
  {
    var m := MatchNumber(s).value;
    var d := DigitRun(s);
    DigitRunIsDigits(s);
    if m.length > d {
      var f := DigitRun(s[d + 1..]);
      DigitRunIsDigits(s[d + 1..]);
      assert s[d + 1..][f - 1] == s[d + f];
      assert s[..d + 1 + f][d + f] == s[d + f];
    } else {
      assert s[..d][d - 1] == s[d - 1];
    }
  }

  lemma StringMatchConsumesSpelling(s: string)
    requires MatchString(s).Some?
    ensures ConsumesSpelling(STRING, s, MatchString(s).value)
  {
    var q := QuoteFreeRun(s[1..]);
    assert s[..q + 2] == "\"" + s[1..1 + q] + "\"";
  }

  lemma IdentifierMatchConsumesSpelling(s: string)
    requires MatchIdentifier(s).Some?
    ensures ConsumesSpelling(IDENTIFIER, s, MatchIdentifier(s).value)
  {
    var w := WordRun(s);
    WordRunIsWordChars(s);
    assert s[..w][w - 1] == s[w - 1];
  }

  lemma FixedMatchConsumesSpelling(k: TokenType, s: string)
    requires k != NUMBER && k != STRING && k != IDENTIFIER && MatchPattern(k, s).Some?
    ensures ConsumesSpelling(k, s, MatchPattern(k, s).value)
  {
    var t := FixedText(k).value;
    assert s[..|t|] == t;
    assert s[|t| - 1] == t[|t| - 1];
    assert t[|t| - 1] in {'+', '-', '*', '/', '%', ':', '>', '=', '<', '.', '(', ')', 'f', 'n', 'e', 'd', 'o'};
  }

  /** A match consumes exactly the text of its token (string quotes included), at least one
      character, and that text ends in a character that is not whitespace. */
  lemma MatchConsumesSpelling(k: TokenType, s: string)
    requires MatchPattern(k, s).Some?
    ensures ConsumesSpelling(k, s, MatchPattern(k, s).value)
  {
    if k == NUMBER {
      NumberMatchConsumesSpelling(s);
    } else if k == STRING {
      StringMatchConsumesSpelling(s);
    } else if k == IDENTIFIER {
      IdentifierMatchConsumesSpelling(s);
    } else {
      FixedMatchConsumesSpelling(k, s);
    }
  }

  /** The loop over `PATTERNS.items()` for a table of kinds, from position `i` on. */
  function FirstMatchFrom(table: seq<TokenType>, s: string, i: nat): Option<(TokenType, Match)>
    requires i <= |table|
    decreases |table| - i, 1
  {
    if i == |table| then None else TryEntry(table, s, i)
  }

  /** One turn of that loop: entry `i` when its pattern matches, else the entries after it. */
  function TryEntry(table: seq<TokenType>, s: string, i: nat): Option<(TokenType, Match)>
    requires i < |table|
    decreases |table| - i, 0
  {
    match MatchPattern(table[i], s)
    case Some(m) => Some((table[i], m))
    case None => FirstMatchFrom(table, s, i + 1)
  }

  /** The kind and match `_scan_token` keeps for the text `s` after the cursor. */
  function FirstMatch(s: string): Option<(TokenType, Match)> {
    FirstMatchFrom(PatternOrder(), s, 0)
  }

  /** The entry at table position `i` is chosen whenever it matches and no earlier entry does;
      there is no longest-match rule. */
  lemma {:induction false} FirstMatchTakesEarliest(table: seq<TokenType>, s: string, i: nat, from: nat)
    requires from <= i < |table| && MatchPattern(table[i], s).Some?
    requires forall j :: from <= j < i ==> MatchPattern(table[j], s).None?
    ensures FirstMatchFrom(table, s, from) == Some((table[i], MatchPattern(table[i], s).value))
    decreases i - from
  {
    if from < i {
      FirstMatchTakesEarliest(table, s, i, from + 1);
    }
  }

  /** Conversely, a choice is a matching entry with no matching entry before it, and nothing is
      chosen exactly when no entry matches. */
  lemma {:induction false} FirstMatchIsEarliest(table: seq<TokenType>, s: string, from: nat)
    requires from <= |table|
    ensures FirstMatchFrom(table, s, from).Some? ==>
      exists n ::
        from <= n < |table| && MatchPattern(table[n], s).Some? &&
        FirstMatchFrom(table, s, from) == Some((table[n], MatchPattern(table[n], s).value)) &&
        forall j :: from <= j < n ==> MatchPattern(table[j], s).None?
    ensures FirstMatchFrom(table, s, from).None? <==>
      forall j :: from <= j < |table| ==> MatchPattern(table[j], s).None?
    decreases |table| - from
  {
    if from < |table| {
      FirstMatchIsEarliest(table, s, from + 1);
      if MatchPattern(table[from], s).None? {
        assert FirstMatchFrom(table, s, from) == TryEntry(table, s, from) == FirstMatchFrom(table, s, from + 1);
        if FirstMatchFrom(table, s, from + 1).Some? {
          var n :| from + 1 <= n < |table| &&
            MatchPattern(table[n], s).Some? &&
            FirstMatchFrom(table, s, from + 1) == Some((table[n], MatchPattern(table[n], s).value)) &&
            forall j :: from + 1 <= j < n ==> MatchPattern(table[j], s).None?;
          assert forall j :: from <= j < n ==> MatchPattern(table[j], s).None?;
        }
      } else {
        assert FirstMatchFrom(table, s, from) == TryEntry(table, s, from);
      }
    }
  }

  /** What the loop keeps is a match of the kind it reports. */
  lemma {:induction false} FirstMatchFromMatches(table: seq<TokenType>, s: string, from: nat)
    requires from <= |table| && FirstMatchFrom(table, s, from).Some?
    ensures MatchPattern(FirstMatchFrom(table, s, from).value.0, s) == Some(FirstMatchFrom(table, s, from).value.1)
    decreases |table| - from
  {
    if MatchPattern(table[from], s).None? {
      FirstMatchFromMatches(table, s, from + 1);
    }
  }

  /** The chosen token's text is what the match consumed. */
  lemma FirstMatchConsumesSpelling(s: string)
    requires FirstMatch(s).Some?
    ensures ConsumesSpelling(FirstMatch(s).value.0, s, FirstMatch(s).value.1)
  {
    FirstMatchFromMatches(PatternOrder(), s, 0);
    MatchConsumesSpelling(FirstMatch(s).value.0, s);
  }

  /** Why a scan stopped: `_skip_whitespace` ran off the end of the source (an IndexError), or
      no pattern matched ("Unexpected character: c"). */
  datatype ScanError = IndexOutOfRange | UnexpectedCharacter(c: char)

  function Message(e: ScanError): string {
    match e
    case IndexOutOfRange => "string index out of range"
    case UnexpectedCharacter(c) => "Unexpected character: " + [c]
  }

  /** `_skip_whitespace` from `cur`: the first non-space position, or an error at the end of the
      source, because the loop reads `source[current]` before it looks at the length. */
  function SkipSpace(src: string, cur: nat): (r: Result<nat, ScanError>)
    requires cur <= |src|
    ensures r.Ok? ==> cur <= r.value < |src| && !IsSpace(src[r.value])
    ensures r.Ok? ==> forall i :: cur <= i < r.value ==> IsSpace(src[i])
    ensures r.Err? ==> r.error == IndexOutOfRange && forall i :: cur <= i < |src| ==> IsSpace(src[i])
    decreases |src| - cur
  {
    if cur == |src| then Err(IndexOutOfRange)
    else if IsSpace(src[cur]) then SkipSpace(src, cur + 1)
    else Ok(cur)
  }

  /** One `_scan_token` from `cur`: the token and the new cursor, or the error and the cursor
      where it was raised. */
  function ScanOne(src: string, cur: nat): (r: Result<(Token, nat), (ScanError, nat)>)
    requires cur <= |src|
    ensures r.Ok? ==> cur < r.value.1 <= |src|
    ensures r.Err? ==> cur <= r.error.1 <= |src|
  {
    match SkipSpace(src, cur)
    case Err(e) => Err((e, |src|))
    case Ok(p) =>
      match FirstMatch(src[p..])
      case None => Err((UnexpectedCharacter(src[p]), p))
      case Some((k, m)) =>
        FirstMatchConsumesSpelling(src[p..]);
        Ok((Token(k, m.lexeme), p + m.length))
  }

  /** The tokens read from `cur` on, where the scan stopped, and the error it stopped on, if any. */
  datatype ScanOutcome = ScanOutcome(tokens: seq<Token>, stop: nat, error: Option<ScanError>)

  function Prepend(done: seq<Token>, o: ScanOutcome): ScanOutcome {
    ScanOutcome(done + o.tokens, o.stop, o.error)
  }

  lemma PrependTwice(a: seq<Token>, b: seq<Token>, o: ScanOutcome)
    ensures Prepend(a, Prepend(b, o)) == Prepend(a + b, o)
  {
    assert a + (b + o.tokens) == (a + b) + o.tokens;
  }

  /** `scan_tokens` from `cur`: tokens are read until the cursor reaches the end; no EOF token. */
  function ScanFrom(src: string, cur: nat): (o: ScanOutcome)
    requires cur <= |src|
    ensures cur <= o.stop <= |src|
    ensures o.error.None? ==> o.stop == |src|
    decreases |src| - cur
  {
    if cur == |src| then ScanOutcome([], cur, None)
    else match ScanOne(src, cur)
      case Err((e, p)) => ScanOutcome([], p, Some(e))
      case Ok((t, p)) => Prepend([t], ScanFrom(src, p))
  }

  /** `Scanner(source).scan_tokens()`. */
  function Scan(src: string): Result<seq<Token>, ScanError> {
    var o := ScanFrom(src, 0);
    if o.error.None? then Ok(o.tokens) else Err(o.error.value)
  }

  /** A source whose last character is whitespace never scans cleanly: every token ends in a
      non-space character, so the scan reaches `_skip_whitespace` inside the trailing run and
      reads past the end. */
  lemma {:induction false} TrailingSpaceFails(src: string, cur: nat)
    requires cur < |src| && IsSpace(src[|src| - 1])
    ensures ScanFrom(src, cur).error.Some?
    decreases |src| - cur
  {
    match ScanOne(src, cur)
    case Err(_) =>
    case Ok((t, p)) =>
      var q := SkipSpace(src, cur).value;
      var m := FirstMatch(src[q..]).value;
      FirstMatchConsumesSpelling(src[q..]);
      assert src[q..][m.1.length - 1] == src[p - 1];
      TrailingSpaceFails(src, p);
  }

  /** Text made of whitespace gaps and token spellings, alternating, gap first. */
  function Layout(gaps: seq<string>, toks: seq<Token>): string
    requires |gaps| == |toks|
  {
    if toks == [] then [] else gaps[0] + Spelling(toks[0]) + Layout(gaps[1..], toks[1..])
  }

  /** The spellings of the tokens, back to back. */
  function Spellings(toks: seq<Token>): string {
    if toks == [] then [] else Spelling(toks[0]) + Spellings(toks[1..])
  }

  predicate AllSpace(s: string) { forall i :: 0 <= i < |s| ==> IsSpace(s[i]) }

  /** One token step: whitespace up to `q`, then exactly the token's spelling. */
  lemma ScanOneSpelling(src: string, cur: nat) returns (q: nat)
    requires cur <= |src| && ScanOne(src, cur).Ok?
    ensures var (t, p) := ScanOne(src, cur).value;
      cur <= q < p && AllSpace(src[cur..q]) && src[q..p] == Spelling(t)
  {
    q := SkipSpace(src, cur).value;
    FirstMatchConsumesSpelling(src[q..]);
    var m := FirstMatch(src[q..]).value;
    assert src[q..q + m.1.length] == src[q..][..m.1.length];
  }

  /** A clean scan loses nothing but whitespace: the source is the token spellings in order with
      a run of whitespace before each, so the spellings back to back are the source without
      the whitespace between tokens. */
  lemma {:induction false} ScanReproducesSource(src: string, cur: nat) returns (gaps: seq<string>)
    requires cur <= |src| && ScanFrom(src, cur).error.None?
    ensures |gaps| == |ScanFrom(src, cur).tokens| && forall g :: g in gaps ==> AllSpace(g)
    ensures src[cur..] == Layout(gaps, ScanFrom(src, cur).tokens)
    decreases |src| - cur
  {
    if cur == |src| {
      gaps := [];
    } else {
      var t, q, p := CleanScanStep(src, cur);
      var rest := ScanReproducesSource(src, p);
      gaps := [src[cur..q]] + rest;
      LayoutStep(src, cur, q, p, t, rest, ScanFrom(src, p).tokens);
    }
  }

  /** One step of a clean scan: whitespace up to `q`, the spelling of `t` up to `p`, and the
      scan from `p` on gives the remaining tokens. */
  lemma CleanScanStep(src: string, cur: nat) returns (t: Token, q: nat, p: nat)
    requires cur < |src| && ScanFrom(src, cur).error.None?
    ensures cur <= q < p <= |src| && AllSpace(src[cur..q]) && src[q..p] == Spelling(t)
    ensures ScanFrom(src, cur) == Prepend([t], ScanFrom(src, p))
  {
    t, p := ScanOne(src, cur).value.0, ScanOne(src, cur).value.1;
    q := ScanOneSpelling(src, cur);
  }

  lemma LayoutStep(src: string, cur: nat, q: nat, p: nat, t: Token, gaps: seq<string>, toks: seq<Token>)
    requires cur <= q <= p <= |src| && src[q..p] == Spelling(t)
    requires |gaps| == |toks| && src[p..] == Layout(gaps, toks)
    ensures src[cur..] == Layout([src[cur..q]] + gaps, [t] + toks)
  {
    assert ([src[cur..q]] + gaps)[1..] == gaps;
    assert ([t] + toks)[1..] == toks;
    assert src[cur..] == src[cur..q] + src[q..p] + src[p..];
  }

  /** Removing the gaps from the layout leaves the spellings. */
  lemma {:induction false} LayoutWithoutGaps(gaps: seq<string>, toks: seq<Token>)
    requires |gaps| == |toks| && forall i :: 0 <= i < |gaps| ==> gaps[i] == []
    ensures Layout(gaps, toks) == Spellings(toks)
  {
    if toks != [] {
      assert gaps[0] == [];
      LayoutWithoutGaps(gaps[1..], toks[1..]);
      assert Layout(gaps, toks) == Spelling(toks[0]) + Layout(gaps[1..], toks[1..]);
    }
  }

  /** Entries that do not match are passed over. */
  lemma {:induction false} SkipNonMatching(table: seq<TokenType>, s: string, from: nat, to: nat)
    requires from <= to <= |table|
    requires forall j :: from <= j < to ==> MatchPattern(table[j], s).None?
    ensures FirstMatchFrom(table, s, from) == FirstMatchFrom(table, s, to)
    decreases |table| - from
  {
    if from < to {
      SkipNonMatching(table, s, from + 1, to);
    }
  }

  /** Whether the pattern of `k` can match text that starts with `c`. */
  predicate Leads(k: TokenType, c: char) {
    if k == NUMBER then IsDigit(c)
    else if k == STRING then c == '"'
    else if k == IDENTIFIER then IsWordChar(c)
    else FixedText(k).Some? && FixedText(k).value[0] == c
  }

  /** A pattern only matches text that starts with a character it can start with. */
  lemma MatchNeedsLead(k: TokenType, s: string)
    requires MatchPattern(k, s).Some?
    ensures s != [] && Leads(k, s[0])
  {
    if FixedText(k).Some? && k != NUMBER && k != STRING && k != IDENTIFIER {
      assert s[0] == FixedText(k).value[0];
    }
  }

  /** No entry from `from` to `to` can start with `c`. */
  predicate NoneLeads(from: nat, to: nat, c: char)
    requires from <= to <= |PatternOrder()|
  {
    forall j :: from <= j < to ==> !Leads(PatternOrder()[j], c)
  }

  /** The same, for entries listed as `ks`. */
  lemma NoneLeadsListed(from: nat, to: nat, ks: seq<TokenType>, c: char)
    requires from <= to <= |PatternOrder()| && ks == PatternOrder()[from..to]
    requires forall k :: k in ks ==> !Leads(k, c)
    ensures NoneLeads(from, to, c)
  {
    forall j | from <= j < to
      ensures !Leads(PatternOrder()[j], c)
    {
      assert PatternOrder()[j] == ks[j - from];
    }
  }

  /** Entries that cannot start with the first character of the text are passed over. */
  lemma SkipNotLeading(s: string, from: nat, to: nat)
    requires s != [] && from <= to <= |PatternOrder()| && NoneLeads(from, to, s[0])
    ensures FirstMatchFrom(PatternOrder(), s, from) == FirstMatchFrom(PatternOrder(), s, to)
  {
    forall j | from <= j < to
      ensures MatchPattern(PatternOrder()[j], s).None?
    {
      if MatchPattern(PatternOrder()[j], s).Some? {
        MatchNeedsLead(PatternOrder()[j], s);
      }
    }
    SkipNonMatching(PatternOrder(), s, from, to);
  }

  /** The table in four stretches before the keywords, each with the characters none of its
      entries starts with: the literals and the additive operators, */
  lemma SkipLiteralsAndAdditive(s: string)
    requires s != [] && !IsDigit(s[0]) && s[0] !in "\"+-"
    ensures FirstMatchFrom(PatternOrder(), s, 0) == FirstMatchFrom(PatternOrder(), s, 4)
  {
    NoneLeadsListed(0, 4, [NUMBER, STRING, PLUS, MINUS], s[0]);
    SkipNotLeading(s, 0, 4);
  }

  /** the multiplicative operators and the colon, */
  lemma SkipMultiplicative(s: string)
    requires s != [] && s[0] !in "*/%:"
    ensures FirstMatchFrom(PatternOrder(), s, 4) == FirstMatchFrom(PatternOrder(), s, 9)
  {
    NoneLeadsListed(4, 9, [EXP, MUL, DIV, MOD, COLON], s[0]);
    SkipNotLeading(s, 4, 9);
  }

  /** the comparisons, */
  lemma SkipComparisons(s: string)
    requires s != [] && s[0] !in "<>="
    ensures FirstMatchFrom(PatternOrder(), s, 9) == FirstMatchFrom(PatternOrder(), s, 15)
  {
    SkipTwoCharacterComparisons(s);
    SkipOneCharacterComparisons(s);
  }

  lemma SkipTwoCharacterComparisons(s: string)
    requires s != [] && s[0] !in "<>"
    ensures FirstMatchFrom(PatternOrder(), s, 9) == FirstMatchFrom(PatternOrder(), s, 12)
  {
    NoneLeadsListed(9, 12, [NE, LE, GE], s[0]);
    SkipNotLeading(s, 9, 12);
  }

  lemma SkipOneCharacterComparisons(s: string)
    requires s != [] && s[0] !in "<>="
    ensures FirstMatchFrom(PatternOrder(), s, 12) == FirstMatchFrom(PatternOrder(), s, 15)
  {
    NoneLeadsListed(12, 15, [LT, GT, EQ], s[0]);
    SkipNotLeading(s, 12, 15);
  }

  /** and the punctuation. */
  lemma SkipPunctuation(s: string)
    requires s != [] && s[0] !in ".()"
    ensures FirstMatchFrom(PatternOrder(), s, 15) == FirstMatchFrom(PatternOrder(), s, 18)
  {
    NoneLeadsListed(15, 18, [PERIOD, LPAREN, RPAREN], s[0]);
    SkipNotLeading(s, 15, 18);
  }

  /** Entry `i` has a fixed text, and it is not a prefix of `s`. */
  predicate FixedMiss(s: string, i: nat) {
    i < 25 && FixedText(Entry(i)).Some? && !(FixedText(Entry(i)).value <= s)
  }

  /** An entry whose fixed text is not a prefix is passed over. */
  lemma SkipFixed(s: string, i: nat)
    requires FixedMiss(s, i)
    ensures FirstMatchFrom(PatternOrder(), s, i) == FirstMatchFrom(PatternOrder(), s, i + 1)
  {
    var k := Entry(i);
    assert PatternOrder()[i] == k;
    assert k != NUMBER && k != STRING && k != IDENTIFIER;
    assert MatchPattern(k, s).None?;
  }

  /** An entry whose fixed text is a prefix is chosen when the loop reaches it. */
  lemma ChooseFixed(s: string, i: nat)
    requires i < 25 && FixedText(Entry(i)).Some? && FixedText(Entry(i)).value <= s
    ensures var t := FixedText(Entry(i)).value;
      FirstMatchFrom(PatternOrder(), s, i) == Some((Entry(i), Match(t, |t|)))
  {
    var k, t := Entry(i), FixedText(Entry(i)).value;
    assert PatternOrder()[i] == k;
    assert k != NUMBER && k != STRING && k != IDENTIFIER;
    assert MatchPattern(k, s) == Some(Match(t, |t|));
  }

  /** Text starting with a digit is a NUMBER: it is the first entry of the table. */
  lemma DigitStartsNumber(s: string)
    requires s != [] && IsDigit(s[0])
    ensures FirstMatch(s) == Some((NUMBER, MatchNumber(s).value))
  {
  }

  /** A letter or an underscore starts no operator or punctuation. */
  lemma WordCharIsNoSymbol(c: char)
    requires IsLetter(c) || c == '_'
    ensures !IsDigit(c) && c !in "\"+-" && c !in "*/%:" && c !in "<>=" && c !in ".()"
  {
  }

  /** Text starting with a letter or underscore gets past every entry before the keywords. */
  lemma {:induction false} WordStartReachesKeywords(s: string)
    requires s != [] && (IsLetter(s[0]) || s[0] == '_')
    ensures FirstMatch(s) == FirstMatchFrom(PatternOrder(), s, 18)
  {
    WordCharIsNoSymbol(s[0]);
    WordStartPassesOperators(s);
    SkipComparisons(s);
    SkipPunctuation(s);
  }

  lemma WordStartPassesOperators(s: string)
    requires s != [] && !IsDigit(s[0]) && s[0] !in "\"+-" && s[0] !in "*/%:"
    ensures FirstMatch(s) == FirstMatchFrom(PatternOrder(), s, 9)
  {
    SkipLiteralsAndAdditive(s);
    SkipMultiplicative(s);
  }

  /** Past the keyword entries when no keyword is a prefix. */
  lemma {:induction false} KeywordsPassedOver(s: string)
    requires !("if" <= s) && !("then" <= s) && !("else" <= s) && !("end" <= s) && !("while" <= s) && !("do" <= s)
    ensures FirstMatchFrom(PatternOrder(), s, 18) == FirstMatchFrom(PatternOrder(), s, 24)
  {
    NoKeywordIsPrefix(s);
    ConditionalKeywordsPassedOver(s);
    LoopKeywordsPassedOver(s);
  }

  lemma NoKeywordIsPrefix(s: string)
    requires !("if" <= s) && !("then" <= s) && !("else" <= s) && !("end" <= s) && !("while" <= s) && !("do" <= s)
    ensures FixedMiss(s, 18) && FixedMiss(s, 19) && FixedMiss(s, 20)
    ensures FixedMiss(s, 21) && FixedMiss(s, 22) && FixedMiss(s, 23)
  {
  }

  lemma ConditionalKeywordsPassedOver(s: string)
    requires FixedMiss(s, 18) && FixedMiss(s, 19) && FixedMiss(s, 20)
    ensures FirstMatchFrom(PatternOrder(), s, 18) == FirstMatchFrom(PatternOrder(), s, 21)
  {
    SkipFixed(s, 18);
    SkipFixed(s, 19);
    SkipFixed(s, 20);
  }

  lemma LoopKeywordsPassedOver(s: string)
    requires FixedMiss(s, 21) && FixedMiss(s, 22) && FixedMiss(s, 23)
    ensures FirstMatchFrom(PatternOrder(), s, 21) == FirstMatchFrom(PatternOrder(), s, 24)
  {
    SkipFixed(s, 21);
    SkipFixed(s, 22);
    SkipFixed(s, 23);
  }

  /** A word no keyword is a prefix of is an identifier, read to its end. */
  lemma {:induction false} PlainWordIsIdentifier(s: string)
    requires s != [] && (IsLetter(s[0]) || s[0] == '_')
    requires !("if" <= s) && !("then" <= s) && !("else" <= s) && !("end" <= s) && !("while" <= s) && !("do" <= s)
    ensures FirstMatch(s) == Some((IDENTIFIER, Match(s[..WordRun(s)], WordRun(s))))
  {
    WordStartReachesKeywords(s);
    KeywordsPassedOver(s);
    LastEntryIsIdentifier(s);
  }

  lemma LastEntryIsIdentifier(s: string)
    requires s != [] && (IsLetter(s[0]) || s[0] == '_')
    ensures FirstMatchFrom(PatternOrder(), s, 24) == Some((IDENTIFIER, Match(s[..WordRun(s)], WordRun(s))))
  {
    assert PatternOrder()[24] == IDENTIFIER;
  }

  /** A keyword is matched as a prefix: any text starting with `if` gives IF, even inside a
      longer word. */
  lemma {:induction false} KeywordIsMatchedAsPrefix(s: string)
    requires "if" <= s
    ensures FirstMatch(s) == Some((IF, Match("if", 2)))
  {
    assert s[0] == 'i';
    WordStartReachesKeywords(s);
    IfIsChosen(s);
  }

  lemma IfIsChosen(s: string)
    requires "if" <= s
    ensures FirstMatchFrom(PatternOrder(), s, 18) == Some((IF, Match("if", 2)))
  {
    ChooseFixed(s, 18);
  }

  /** Earliest entry wins among operators: `**` is EXP although MUL would match its first
      character. */
  lemma {:induction false} ExponentBeforeMultiplication(s: string)
    requires "**" <= s
    ensures FirstMatch(s) == Some((EXP, Match("**", 2)))
  {
    assert s[0] == '*';
    SkipLiteralsAndAdditive(s);
    ExponentIsChosen(s);
  }

  lemma ExponentIsChosen(s: string)
    requires "**" <= s
    ensures FirstMatchFrom(PatternOrder(), s, 4) == Some((EXP, Match("**", 2)))
  {
    ChooseFixed(s, 4);
  }

  /** Text starting with `<` gets past the ten entries before LE unless it starts with `<>`. */
  lemma {:induction false} LessPassesOverEarlierEntries(s: string)
    requires s != [] && s[0] == '<' && !("<>" <= s)
    ensures FirstMatch(s) == FirstMatchFrom(PatternOrder(), s, 10)
  {
    WordStartPassesOperators(s);
    LessMissesNotEqual(s);
    SkipFixed(s, 9);
  }

  lemma LessMissesNotEqual(s: string)
    requires !("<>" <= s)
    ensures FixedMiss(s, 9)
  {
  }

  /** `<=` is read whole as LE although LT, later in the table, would match its first character. */
  lemma {:induction false} LessEqualBeforeLess(s: string)
    requires "<=" <= s
    ensures FirstMatch(s) == Some((LE, Match("<=", 2)))
  {
    LessEqualStartsWithLess(s);
    LessPassesOverEarlierEntries(s);
    LessEqualIsChosen(s);
  }

  lemma LessEqualStartsWithLess(s: string)
    requires "<=" <= s
    ensures s != [] && s[0] == '<' && !("<>" <= s)
  {
    assert s[1] == '=';
  }

  lemma LessEqualIsChosen(s: string)
    requires "<=" <= s
    ensures FirstMatchFrom(PatternOrder(), s, 10) == Some((LE, Match("<=", 2)))
  {
    ChooseFixed(s, 10);
  }

  /** A point is read as part of a number only when a digit follows it (`4.0` is one NUMBER);
      otherwise the number stops before it (`2.` is NUMBER `2`, and the point is left over). */
  lemma {:induction false} NumberTakesPointOnlyBeforeDigit(s: string)
    requires s != [] && IsDigit(s[0])
    ensures FirstMatch(s).Some? && FirstMatch(s).value.0 == NUMBER
    ensures var d := DigitRun(s); var m := FirstMatch(s).value.1;
      ('.' in m.lexeme <==> d + 1 < |s| && s[d] == '.' && IsDigit(s[d + 1])) &&
      m.lexeme == s[..m.length]
  {
    DigitStartsNumber(s);
    var d := DigitRun(s);
    DigitRunIsDigits(s);
    assert forall i :: 0 <= i < d ==> s[..d][i] == s[i];
    if d + 1 < |s| && s[d] == '.' && IsDigit(s[d + 1]) {
      assert DigitRun(s[d + 1..]) > 0;
      assert s[..d + 1 + DigitRun(s[d + 1..])][d] == '.';
    } else {
      assert d < |s| && s[d] == '.' ==> DigitRun(s[d + 1..]) == 0;
      assert '.' !in s[..d];
    }
  }

  /** The point left over is read as PERIOD. */
  lemma {:induction false} PointIsPeriod(s: string)
    requires s != [] && s[0] == '.'
    ensures FirstMatch(s) == Some((PERIOD, Match(".", 1)))
  {
    WordStartPassesOperators(s);
    SkipComparisons(s);
    PeriodIsChosen(s);
  }

  lemma PeriodIsChosen(s: string)
    requires s != [] && s[0] == '.'
    ensures FirstMatchFrom(PatternOrder(), s, 15) == Some((PERIOD, Match(".", 1)))
  {
    assert s[..1] == ".";
    ChooseFixed(s, 15);
  }

  /** The loop over the table in `_scan_token`: the entries are tried in order and the first
      whose pattern matches is kept. */
  method FirstMatchLoop(rest: string) returns (r: Option<(TokenType, Match)>)
    ensures r == FirstMatch(rest)
  {
    var i := 0;
    while i < |PatternOrder()|
      invariant 0 <= i <= |PatternOrder()|
      invariant forall j :: 0 <= j < i ==> MatchPattern(PatternOrder()[j], rest).None?
    {
      var m := MatchPattern(PatternOrder()[i], rest);
      if m.Some? {
        FirstMatchTakesEarliest(PatternOrder(), rest, i, 0);
        return Some((PatternOrder()[i], m.value));
      }
      i := i + 1;
    }
    FirstMatchIsEarliest(PatternOrder(), rest, 0);
    return None;
  }

  /** The scanner object: the source, the tokens read so far and the cursor. */
  class Scanner {
    const source: string
    var tokens: seq<Token>
    var current: nat

    ghost predicate Valid() reads this {
      current <= |source|
    }

    constructor (source: string)
      ensures this.source == source && tokens == [] && current == 0 && Valid()
    {
      this.source := source;
      tokens := [];
      current := 0;
    }

    /** `_is_at_end`. */
    predicate IsAtEnd() reads this {
      current >= |source|
    }

    /** `_advance`: one step, never past the end of the source. */
    method Advance()
      requires Valid()
      modifies this`current
      ensures Valid()
      ensures current == if old(current) == |source| then old(current) else old(current) + 1
    {
      if IsAtEnd() {
        return;
      }
      current := current + 1;
    }

    /** `_skip_whitespace`: stops at the first non-space character, or fails at the end. */
    method SkipWhitespace() returns (err: Option<ScanError>)
      requires Valid()
      modifies this`current
      ensures Valid()
      ensures SkipSpace(source, old(current)).Ok? ==>
        err == None && current == SkipSpace(source, old(current)).value
      ensures SkipSpace(source, old(current)).Err? ==>
        err == Some(IndexOutOfRange) && current == |source|
    {
      while true
        invariant Valid() && old(current) <= current
        invariant SkipSpace(source, old(current)) == SkipSpace(source, current)
        decreases |source| - current
      {
        if current == |source| {
          return Some(IndexOutOfRange);
        }
        if !IsSpace(source[current]) {
          return None;
        }
        Advance();
      }
    }

    /** `_scan_token`: skip whitespace, then try the patterns in table order and keep the first
        that matches; the cursor moves past the whole match and the captured group is stored. */
    method ScanToken() returns (err: Option<ScanError>)
      requires Valid()
      modifies this`current, this`tokens
      ensures Valid()
      ensures ScanOne(source, old(current)).Ok? ==>
        (err == None &&
         tokens == old(tokens) + [ScanOne(source, old(current)).value.0] &&
         current == ScanOne(source, old(current)).value.1)
      ensures ScanOne(source, old(current)).Err? ==>
        (tokens == old(tokens) &&
         err == Some(ScanOne(source, old(current)).error.0) &&
         current == ScanOne(source, old(current)).error.1)
    {
      err := SkipWhitespace();
      if err.Some? {
        return;
      }
      var found := FirstMatchLoop(source[current..]);
      if found.None? {
        err := Some(UnexpectedCharacter(source[current]));
        return;
      }
      var (k, m) := found.value;
      FirstMatchConsumesSpelling(source[current..]);
      tokens := tokens + [Token(k, m.lexeme)];
      current := current + m.length;
    }

    /** `scan_tokens`: scan until the cursor reaches the end and return the token list. */
    method ScanTokens() returns (r: Result<seq<Token>, ScanError>)
      requires Valid()
      modifies this`current, this`tokens
      ensures Valid()
      ensures var o := ScanFrom(source, old(current));
        tokens == old(tokens) + o.tokens && current == o.stop &&
        r == if o.error.None? then Ok(tokens) else Err(o.error.value)
    {
      ghost var done: seq<Token> := [];
      assert Prepend(done, ScanFrom(source, current)).tokens == ScanFrom(source, current).tokens;
      while !IsAtEnd()
        invariant Valid() && old(current) <= current
        invariant tokens == old(tokens) + done
        invariant ScanFrom(source, old(current)) == Prepend(done, ScanFrom(source, current))
        decreases |source| - current
      {
        ghost var at := current;
        var err := ScanToken();
        if err.Some? {
          assert ScanFrom(source, at) == ScanOutcome([], current, err);
          return Err(err.value);
        }
        ghost var t := tokens[|tokens| - 1];
        assert ScanFrom(source, at) == Prepend([t], ScanFrom(source, current));
        PrependTwice(done, [t], ScanFrom(source, current));
        done := done + [t];
      }
      return Ok(tokens);
    }
  }
}
