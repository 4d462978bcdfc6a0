/** Properties of the scanner's specification `Lexer.Scan` / `Lexer.LexSpec`,
    which the imperative `Lexer.Lex` is proved to compute. */
module LexerProperties {
  import opened Lexer

  /** Moves a location's stored `line` field, which the scanner fills with
      its running column counter, `n` places to the right. */
  function ShiftLocation(l: Location, n: nat): Location
  {
    Location(l.line + n, l.column)
  }

  function ShiftToken(t: Token, n: nat): Token
  {
    Token(ShiftLocation(t.start, n), ShiftLocation(t.end, n), t.tokenType)
  }

  function ShiftTokens(ts: seq<Token>, n: nat): (r: seq<Token>)
    ensures |r| == |ts|
    ensures forall i :: 0 <= i < |ts| ==> r[i] == ShiftToken(ts[i], n)
  {
    if ts == [] then [] else [ShiftToken(ts[0], n)] + ShiftTokens(ts[1..], n)
  }

  function ShiftResult(r: LexResult, n: nat): LexResult
  {
    match r
    case Ok(ts) => Ok(ShiftTokens(ts, n))
    case Err(UnexpectedToken(c, start, end)) =>
      Err(UnexpectedToken(c, ShiftLocation(start, n), ShiftLocation(end, n)))
    case Err(UnexpectedEndOfFile) => r
  }

  /** The results of two consecutive scans as one: the first error wins. */
  function Join(a: LexResult, b: LexResult): LexResult
  {
    match a
    case Err(e) => Err(e)
    case Ok(ts) => Prepend(ts, b)
  }

  /** The index of the first character the scanner rejects. */
  function FirstRejected(s: string): (j: nat)
    requires !AllOperators(s)
    ensures j < |s| && s[j] !in Operators
    ensures forall k | 0 <= k < j :: s[k] in Operators
  {
    if s[0] !in Operators then 0
    else
      assert !AllOperators(s[1..]) by {
        var k :| 0 <= k < |s| && s[k] !in Operators;
        assert s[1..][k - 1] == s[k];
      }
      1 + FirstRejected(s[1..])
  }

  // ---- The scan of operator-only text ----

  /** On text made only of `+`, `-`, `*` and `/`, the scan succeeds with one
      token per character, in input order. The token for index i carries the
      kind of that character and spans it alone; both its locations hold the
      column counter `column + i` in the `line` field and the line counter in
      the `column` field. */
  lemma {:induction false} ScanOperators(s: string, column: nat, line: nat)
    requires AllOperators(s)
    ensures Scan(s, column, line).Ok?
    ensures |Scan(s, column, line).tokens| == |s|
    ensures forall i :: 0 <= i < |s| ==>
      var t := Scan(s, column, line).tokens[i];
      t.start == Location(column + i, line) && t.end == Location(column + i, line) &&
      KindOf(s[i]) == Some(t.tokenType)
    decreases |s|
  {
    if s != [] {
      assert AllOperators(s[1..]) by {
        forall k | 0 <= k < |s[1..]| ensures s[1..][k] in Operators {
          assert s[1..][k] == s[k + 1];
        }
      }
      ScanOperators(s[1..], column + 1, line);
      var rest := Scan(s[1..], column + 1, line).tokens;
      var kind := KindOf(s[0]).value;
      assert Scan(s, column, line).tokens == [PushTok(kind, 1, column, line)] + rest;
      forall i | 1 <= i < |s|
        ensures Scan(s, column, line).tokens[i] == rest[i - 1]
        ensures s[i] == s[1..][i - 1]
      {
      }
    }
  }

  /** On text holding a character other than the four operators, the scan
      fails with `UnexpectedToken` for the first such character, at a single
      location whose `line` field holds its column counter; no token is
      returned. */
  lemma {:induction false} ScanRejects(s: string, column: nat, line: nat)
    requires !AllOperators(s)
    ensures var j := FirstRejected(s);
      Scan(s, column, line) == Err(UnexpectedToken(s[j], Location(column + j, line), Location(column + j, line)))
    decreases |s|
  {
    if s[0] in Operators {
      assert !AllOperators(s[1..]) by {
        var k := FirstRejected(s);
        assert s[1..][k - 1] == s[k];
      }
      ScanRejects(s[1..], column + 1, line);
      assert s[1 + FirstRejected(s[1..])] == s[1..][FirstRejected(s[1..])];
    }
  }

  /** Starting the column counter `n` places later shifts every location
      the scan reports by `n` and changes nothing else. */
  lemma {:induction false} ScanShift(s: string, column: nat, line: nat, n: nat)
    ensures Scan(s, column + n, line) == ShiftResult(Scan(s, column, line), n)
    decreases |s|
  {
    if s != [] {
      match KindOf(s[0])
      case None =>
      case Some(kind) =>
        ScanShift(s[1..], column + 1, line, n);
        var r := Scan(s[1..], column + 1, line);
        var t := PushTok(kind, 1, column, line);
        assert PushTok(kind, 1, column + n, line) == ShiftToken(t, n);
        assert Scan(s, column, line) == Prepend([t], r);
        assert Scan(s, column + n, line) == Prepend([ShiftToken(t, n)], ShiftResult(r, n));
        match r
        case Ok(ts) =>
          assert ShiftTokens([t] + ts, n) == [ShiftToken(t, n)] + ShiftTokens(ts, n);
        case Err(e) =>
    }
  }

  /** A token put in front of two joined scans goes in front of the first. */
  lemma JoinPrepend(t: Token, x: LexResult, y: LexResult)
    ensures Prepend([t], Join(x, y)) == Join(Prepend([t], x), y)
  {
    if x.Ok? && y.Ok? {
      assert [t] + (x.tokens + y.tokens) == ([t] + x.tokens) + y.tokens;
    }
  }

  /** Scanning a concatenation is scanning its halves one after the other,
      the second half starting |a| columns later. */
  lemma {:induction false} ScanAppend(a: string, b: string, column: nat, line: nat)
    ensures Scan(a + b, column, line) == Join(Scan(a, column, line), Scan(b, column + |a|, line))
    decreases |a|
  {
    if a == [] {
      assert a + b == b;
      var r := Scan(b, column, line);
      assert r.Ok? ==> [] + r.tokens == r.tokens;
    } else {
      assert (a + b)[0] == a[0] && (a + b)[1..] == a[1..] + b;
      if KindOf(a[0]).Some? {
        var t := PushTok(KindOf(a[0]).value, 1, column, line);
        var ra, rb := Scan(a[1..], column + 1, line), Scan(b, column + |a|, line);
        assert Scan(a, column, line) == Prepend([t], ra);
        ScanAppend(a[1..], b, column + 1, line);
        assert Scan(a + b, column, line) == Prepend([t], Join(ra, rb));
        JoinPrepend(t, ra, rb);
      }
    }
  }

  // ---- The properties of `lex` ----

  /** The empty text gives `Ok` of no tokens. */
  lemma LexEmpty()
    ensures LexSpec("") == Ok([])
  {
  }

  /** `lex` succeeds exactly on operator-only text. */
  lemma LexSucceedsIff(s: string)
    ensures LexSpec(s).Ok? <==> AllOperators(s)
  {
    if AllOperators(s) {
      ScanOperators(s, 1, 1);
    } else {
      ScanRejects(s, 1, 1);
    }
  }

  /** On operator-only text, the token for the character at index i has
      kind `KindOf(s[i])` and, with the fields transposed as the source builds
      them, `line == i + 1` and `column == 1` at both ends. */
  lemma LexTokens(s: string)
    requires AllOperators(s)
    ensures LexSpec(s).Ok? && |LexSpec(s).tokens| == |s|
    ensures forall i :: 0 <= i < |s| ==>
      LexSpec(s).tokens[i] == Token(Location(i + 1, 1), Location(i + 1, 1), KindOf(s[i]).value)
  {
    ScanOperators(s, 1, 1);
  }

  /** Otherwise the result is the error for the first rejected character,
      at index j, with `line == j + 1` and `column == 1` at both ends. */
  lemma LexError(s: string)
    requires !AllOperators(s)
    ensures var j := FirstRejected(s);
      LexSpec(s) == Err(UnexpectedToken(s[j], Location(j + 1, 1), Location(j + 1, 1)))
  {
    ScanRejects(s, 1, 1);
  }

  /** Only the four one-character operator kinds are ever produced; in
      particular `StarStar`, `Name`, `If`, `Else`, `Indent` and `Dedent`
      never are, and no error is `UnexpectedEndOfFile`. */
  lemma LexProducesOnlyOperators(s: string)
    ensures LexSpec(s).Ok? ==> forall t | t in LexSpec(s).tokens ::
      t.tokenType in {Plus, Minus, Star, Slash}
    ensures LexSpec(s).Err? ==> LexSpec(s).error.UnexpectedToken?
  {
    if AllOperators(s) {
      ScanOperators(s, 1, 1);
      forall t | t in LexSpec(s).tokens ensures t.tokenType in {Plus, Minus, Star, Slash} {
        var i :| 0 <= i < |s| && LexSpec(s).tokens[i] == t;
        assert KindOf(s[i]) == Some(t.tokenType);
      }
    } else {
      ScanRejects(s, 1, 1);
    }
  }

  /** `*` is never combined with the `*` after it: "**" gives two `Star`
      tokens, at column counters 1 and 2. */
  lemma LexStarStar()
    ensures LexSpec("**") == Ok([Token(Location(1, 1), Location(1, 1), Star),
                                 Token(Location(2, 1), Location(2, 1), Star)])
  {
    LexTokens("**");
  }

  /** The unit test of the source: each operator alone lexes to one token
      of its kind, as `Token::is_type` reports. */
  lemma LexOneToken()
    ensures var r := LexSpec("+"); r.Ok? && |r.tokens| == 1 && IsType(r.tokens[0], Plus)
    ensures var r := LexSpec("-"); r.Ok? && |r.tokens| == 1 && IsType(r.tokens[0], Minus)
    ensures var r := LexSpec("*"); r.Ok? && |r.tokens| == 1 && IsType(r.tokens[0], Star)
    ensures var r := LexSpec("/"); r.Ok? && |r.tokens| == 1 && IsType(r.tokens[0], Slash)
  {
    LexTokens("+");
    LexTokens("-");
    LexTokens("*");
    LexTokens("/");
  }

  /** `lex(a + b)` succeeds iff both halves do. Its tokens are then those of
      `a` followed by those of `b` with every location moved |a| columns
      on; otherwise its error is the error of `a`, or if `a` succeeds the
      error of `b` moved |a| columns on. */
  lemma LexConcat(a: string, b: string)
    ensures LexSpec(a + b).Ok? <==> LexSpec(a).Ok? && LexSpec(b).Ok?
    ensures LexSpec(a + b).Ok? ==>
      LexSpec(a + b).tokens == LexSpec(a).tokens + ShiftTokens(LexSpec(b).tokens, |a|)
    ensures LexSpec(a).Err? ==> LexSpec(a + b) == LexSpec(a)
    ensures LexSpec(a).Ok? && LexSpec(b).Err? ==> LexSpec(a + b) == ShiftResult(LexSpec(b), |a|)
  {
    ScanAppend(a, b, 1, 1);
    ScanShift(b, 1, 1, |a|);
  }

  /** `Token::is_type` holds of exactly one kind per token: the token's own. */
  lemma IsTypeExactlyOwnKind(t: Token, k: TokenType)
    ensures IsType(t, t.tokenType)
    ensures IsType(t, k) ==> k == t.tokenType
  {
  }

  /** The `Name` payload takes part in the comparison. */
  lemma IsTypeComparesNameText(t: Token, x: string, y: string)
    requires t.tokenType == Name(x) && x != y
    ensures !IsType(t, Name(y))
  {
  }
}
