/** What the scanner guarantees: which bytes are symbol bytes, what the
    cursor state means, where a location is taken, and the shape of every
    kind of result. */
module LexerFacts {
  import opened Text
  import opened Results
  import opened Lexer

  /** `is_symbol` as the source writes it: no byte of any literal equals
      `b`, `b` is not ASCII whitespace and not a quote. */
  predicate IsSymbolByLiterals(b: byte)
  {
    (forall i, j :: 0 <= i < |Literals| && 0 <= j < |Literals[i].0| ==> Literals[i].0[j] != b)
    && !IsAsciiWhitespace(b) && b != Quote
  }

  /** The listed symbol-byte test and the check against the literal table agree. */
  lemma IsSymbolFromLiterals(b: byte)
    ensures IsSymbol(b) <==> IsSymbolByLiterals(b)
  {
    if IsSymbol(b) {
      forall i, j | 0 <= i < |Literals| && 0 <= j < |Literals[i].0| ensures Literals[i].0[j] != b {
      }
    } else if !IsAsciiWhitespace(b) && b != Quote {
      assert Literals[0].0[0] == Minus && Literals[0].0[1] == Greater && Literals[1].0[0] == Less;
      assert Literals[2].0[0] == OpenBracket && Literals[3].0[0] == CloseBracket;
    }
  }

  /** The number of line feeds in `s`. */
  function NewlineCount(s: bytes): nat
  {
    if s == [] then 0 else NewlineCount(s[..|s| - 1]) + (if s[|s| - 1] == LineFeed then 1 else 0)
  }

  /** The cursor state reached after `k` bytes: `row` is the number of line
      feeds among them and `bol` is the start of the line holding byte `k`,
      so `cur - bol` is the column. */
  lemma {:induction false} PosAtMeaning(c: bytes, k: nat)
    requires k <= |c|
    ensures PosAt(c, k).row == NewlineCount(c[..k])
    ensures PosAt(c, k).bol <= k
    ensures forall j :: PosAt(c, k).bol <= j < k ==> c[j] != LineFeed
    ensures PosAt(c, k).bol == 0 || c[PosAt(c, k).bol - 1] == LineFeed
  {
    if k > 0 {
      PosAtMeaning(c, k - 1);
      assert c[..k][..k - 1] == c[..k - 1];
    }
  }

  /** Passing over bytes none of which is a line feed keeps a tracked
      state tracked with the same row and line start. */
  lemma {:induction false} TracksNoNewline(c: bytes, p: Pos, j: nat)
    requires Tracks(c, p) && p.cur <= j <= |c|
    requires forall k :: p.cur <= k < j ==> c[k] != LineFeed
    ensures Tracks(c, Pos(j, p.bol, p.row))
    decreases j - p.cur
  {
    if p.cur < j {
      TracksNoNewline(c, Advance(c, p), j);
    }
  }

  /** `trim_left` passes over horizontal whitespace only, and `SpaceEnd`
      is the first index from `k` on that is not horizontal whitespace. */
  lemma {:induction false} SpaceEndAll(c: bytes, k: nat)
    requires k <= |c|
    ensures forall m :: k <= m < SpaceEnd(c, k) ==> IsHorizontalSpace(c[m])
    decreases |c| - k
  {
    if k < |c| && IsHorizontalSpace(c[k]) {
      SpaceEndAll(c, k + 1);
    }
  }

  lemma {:induction false} SpaceEndIs(c: bytes, k: nat, j: nat)
    requires k <= j <= |c| && (j == |c| || !IsHorizontalSpace(c[j]))
    requires forall m :: k <= m < j ==> IsHorizontalSpace(c[m])
    ensures SpaceEnd(c, k) == j
    decreases j - k
  {
    if k < j {
      SpaceEndIs(c, k + 1, j);
    }
  }

  /** `skip_until(b)` passes over no `b`. */
  lemma {:induction false} IndexFromNone(c: bytes, k: nat, b: byte)
    requires k <= |c|
    ensures forall m :: k <= m < IndexFrom(c, k, b) ==> c[m] != b
    decreases |c| - k
  {
    if k < |c| && c[k] != b {
      IndexFromNone(c, k + 1, b);
    }
  }

  lemma {:induction false} IndexFromIs(c: bytes, k: nat, b: byte, j: nat)
    requires k <= j <= |c| && (j == |c| || c[j] == b)
    requires forall m :: k <= m < j ==> c[m] != b
    ensures IndexFrom(c, k, b) == j
    decreases j - k
  {
    if k < j {
      IndexFromIs(c, k + 1, b, j);
    }
  }

  /** The run `extract_token` consumes is made of symbol bytes, and it
      stops at the first byte that is not one: the munch is maximal. */
  lemma {:induction false} RunEndAll(c: bytes, k: nat)
    requires k <= |c|
    ensures forall m :: k <= m < RunEnd(c, k) ==> IsSymbol(c[m])
    decreases |c| - k
  {
    if k < |c| && IsSymbol(c[k]) {
      RunEndAll(c, k + 1);
    }
  }

  lemma {:induction false} RunEndIs(c: bytes, k: nat, j: nat)
    requires k <= j <= |c| && (j == |c| || !IsSymbol(c[j]))
    requires forall m :: k <= m < j ==> IsSymbol(c[m])
    ensures RunEnd(c, k) == j
    decreases j - k
  {
    if k < j {
      RunEndIs(c, k + 1, j);
    }
  }

  /** Between the opening quote and the byte the string loop stops on
      there is no line feed and no quote. */
  lemma {:induction false} QuoteEndBetween(c: bytes, k: nat)
    requires WellTerminated(c) && k < |c| && c[k] != LineFeed
    ensures forall m :: k < m < QuoteEnd(c, k) ==> c[m] != LineFeed && c[m] != Quote
    decreases |c| - k
  {
    if !(c[k + 1] == LineFeed || c[k + 1] == Quote) {
      QuoteEndBetween(c, k + 1);
    }
  }

  lemma {:induction false} QuoteEndIs(c: bytes, k: nat, j: nat)
    requires WellTerminated(c) && k < j < |c| && c[k] != LineFeed
    requires c[j] == LineFeed || c[j] == Quote
    requires forall m :: k < m < j ==> c[m] != LineFeed && c[m] != Quote
    ensures QuoteEnd(c, k) == j
    decreases j - k
  {
    if k + 1 < j {
      QuoteEndIs(c, k + 1, j);
    }
  }

  /** `starts_with` compares only the bytes that are left: on a literal
      that fits it is plain equality, and a proper prefix of the literal
      at the very end of the input is accepted too. */
  lemma {:induction false} StartsWithAtFits(c: bytes, k: nat, s: bytes)
    requires k + |s| <= |c|
    ensures StartsWithAt(c, k, s) <==> c[k..k + |s|] == s
    decreases |s|
  {
    if |s| > 0 {
      StartsWithAtFits(c, k + 1, s[1..]);
      assert c[k..k + |s|] == [c[k]] + c[k + 1..k + 1 + |s[1..]|];
      assert s == [s[0]] + s[1..];
    }
  }

  lemma {:induction false} StartsWithAtPrefix(c: bytes, k: nat, s: bytes)
    requires k <= |c| < k + |s| && c[k..] == s[..|c| - k]
    ensures StartsWithAt(c, k, s)
    decreases |s|
  {
    if k < |c| {
      assert c[k] == c[k..][0] == s[0];
      assert c[k + 1..] == c[k..][1..];
      assert s[1..][..|c| - (k + 1)] == s[..|c| - k][1..];
      StartsWithAtPrefix(c, k + 1, s[1..]);
    }
  }

  /** Consuming bytes one at a time keeps the state tracked. */
  lemma {:induction false} SkippedTracks(c: bytes, p: Pos, n: nat)
    requires Tracks(c, p) && p.cur + n <= |c|
    ensures Tracks(c, Skipped(c, p, n))
    decreases n
  {
    if n > 0 {
      SkippedTracks(c, Advance(c, p), n - 1);
    }
  }

  /** The literals' first bytes differ, so the first one that
      `starts_with` accepts is decided by the literals before it. */
  lemma {:induction false} FirstLiteralFrom(c: bytes, k: nat, j: nat, i: nat)
    requires k <= |c| && j <= i <= |Literals|
    requires i < |Literals| ==> StartsWithAt(c, k, Literals[i].0)
    requires forall m :: j <= m < i ==> !StartsWithAt(c, k, Literals[m].0)
    ensures FirstLiteral(c, k, j) == i
    decreases i - j
  {
    if j < i {
      FirstLiteralFrom(c, k, j + 1, i);
    }
  }

  /** The dispatch keeps the state tracked: only a line feed the token
      consumes last starts a new row. */
  lemma DispatchTracks(c: bytes, s: Pos, start: nat, loc: Loc)
    requires WellTerminated(c) && Tracks(c, s) && start <= s.cur < |c|
    ensures Tracks(c, Dispatch(c, s, start, loc).1)
  {
    if c[s.cur] == Quote {
      QuoteTracks(c, s);
    } else if IsSymbol(c[s.cur]) {
      RunTracks(c, s);
    } else {
      LiteralTracks(c, s, start, loc);
    }
  }

  lemma QuoteTracks(c: bytes, s: Pos)
    requires WellTerminated(c) && Tracks(c, s) && s.cur < |c| && c[s.cur] == Quote
    ensures Tracks(c, Pos(QuoteEnd(c, s.cur), s.bol, s.row))
    ensures c[QuoteEnd(c, s.cur)] == Quote ==> Tracks(c, Pos(QuoteEnd(c, s.cur) + 1, s.bol, s.row))
  {
    var j := QuoteEnd(c, s.cur);
    QuoteEndBetween(c, s.cur);
    TracksNoNewline(c, s, j);
    if c[j] == Quote {
      TracksNoNewline(c, s, j + 1);
    }
  }

  lemma RunTracks(c: bytes, s: Pos)
    requires Tracks(c, s) && s.cur < |c| && IsSymbol(c[s.cur])
    ensures Tracks(c, Pos(RunEnd(c, s.cur + 1), s.bol, s.row))
  {
    RunEndAll(c, s.cur + 1);
    TracksNoNewline(c, s, RunEnd(c, s.cur + 1));
  }

  lemma LiteralTracks(c: bytes, s: Pos, start: nat, loc: Loc)
    requires WellTerminated(c) && Tracks(c, s) && start <= s.cur < |c|
    ensures Tracks(c, ScanLiteral(c, s, start, loc).1)
  {
    var i := FirstLiteral(c, s.cur, 0);
    if i < |Literals| {
      LiteralFits(c, s.cur, i);
      SkippedTracks(c, s, |Literals[i].0|);
    }
  }

  /** `next_token` keeps `row` equal to the number of line feeds consumed
      and `bol` just past the last of them. */
  lemma ScanTracks(file: string, c: bytes, p: Pos)
    requires WellTerminated(c) && Tracks(c, p)
    ensures Tracks(c, Scan(file, c, p).1)
  {
    var t := SpaceEnd(c, p.cur);
    SpaceEndAll(c, p.cur);
    TracksNoNewline(c, p, t);
    var loc := Loc(file, p.row, t - p.bol);
    if t < |c| {
      if StartsWithAt(c, t, [Slash, Slash]) {
        var j := IndexFrom(c, t, LineFeed);
        IndexFromNone(c, t, LineFeed);
        TracksNoNewline(c, p, j);
        DispatchTracks(c, Pos(j, p.bol, p.row), t, loc);
      } else {
        DispatchTracks(c, Pos(t, p.bol, p.row), t, loc);
      }
    }
  }

  /** Every result is located where `trim_left` stopped: after the
      horizontal whitespace and before any byte of the token. Its row is
      the number of line feeds before that point and its column the
      distance from the start of the line, just past the last of them. */
  lemma ScanLocation(file: string, c: bytes, p: Pos, t: nat)
    requires WellTerminated(c) && Tracks(c, p) && t == SpaceEnd(c, p.cur)
    ensures forall k :: p.cur <= k < t ==> IsHorizontalSpace(c[k])
    ensures t == |c| || !IsHorizontalSpace(c[t])
    ensures ResultLoc(Scan(file, c, p).0) == Loc(file, NewlineCount(c[..t]), t - p.bol)
    ensures forall j :: p.bol <= j < t ==> c[j] != LineFeed
    ensures p.bol == 0 || c[p.bol - 1] == LineFeed
  {
    SpaceEndAll(c, p.cur);
    TracksNoNewline(c, p, t);
    PosAtMeaning(c, t);
    ScanLoc(file, c, p);
  }

  /** The location of a result is `loc()` taken right after `trim_left`. */
  lemma ScanLoc(file: string, c: bytes, p: Pos)
    requires WellTerminated(c) && Inside(c, p)
    ensures ResultLoc(Scan(file, c, p).0) == Loc(file, p.row, SpaceEnd(c, p.cur) - p.bol)
  {
  }

  /** `Eof` exactly when nothing but horizontal whitespace is left. */
  lemma ScanEofIffBlank(file: string, c: bytes, p: Pos)
    requires WellTerminated(c) && Inside(c, p)
    ensures Scan(file, c, p).0.Eof? <==> forall k :: p.cur <= k < |c| ==> IsHorizontalSpace(c[k])
  {
    SpaceEndAll(c, p.cur);
    if forall k :: p.cur <= k < |c| ==> IsHorizontalSpace(c[k]) {
      SpaceEndIs(c, p.cur, |c|);
    }
  }

  /** A symbol byte at the token start that does not open a comment
      begins a maximal run of symbol bytes `c[t..j]`: a `Cmd` when its
      first byte is `#`, a `Symbol` otherwise, the cursor left on the
      first byte after the run. */
  lemma ScanRun(file: string, c: bytes, p: Pos, t: nat, j: nat)
    requires WellTerminated(c) && Inside(c, p)
    requires t == SpaceEnd(c, p.cur) && t < |c| && IsSymbol(c[t]) && !StartsWithAt(c, t, [Slash, Slash])
    requires j == RunEnd(c, t + 1)
    ensures Scan(file, c, p) ==
      (Valid(Token(if c[t] == Hash then Cmd else Symbol, c[t..j], Loc(file, p.row, t - p.bol))), Pos(j, p.bol, p.row))
    ensures forall k :: t <= k < j ==> IsSymbol(c[k])
    ensures j == |c| || !IsSymbol(c[j])
  {
    RunEndAll(c, t + 1);
  }

  /** A run of symbol bytes `c[t..j]` that ends before a byte that is not
      one is scanned as exactly that token. */
  lemma ScanRunIs(file: string, c: bytes, p: Pos, t: nat, j: nat)
    requires WellTerminated(c) && Inside(c, p)
    requires t == SpaceEnd(c, p.cur) && t < j < |c| && !IsSymbol(c[j]) && !StartsWithAt(c, t, [Slash, Slash])
    requires forall k :: t <= k < j ==> IsSymbol(c[k])
    ensures Scan(file, c, p) ==
      (Valid(Token(if c[t] == Hash then Cmd else Symbol, c[t..j], Loc(file, p.row, t - p.bol))), Pos(j, p.bol, p.row))
  {
    RunEndIs(c, t + 1, j);
    ScanRun(file, c, p, t, j);
  }

  /** A quote at the token start, and `j` the first line feed or quote
      after it: a closing quote at `j` gives the `Symbol` of the bytes
      strictly between the quotes, the closing quote consumed; a line feed
      at `j` gives `UnclosedStr` at the opening quote's location, the
      cursor left on that line feed. */
  lemma ScanQuoted(file: string, c: bytes, p: Pos, t: nat, j: nat)
    requires WellTerminated(c) && Inside(c, p)
    requires t == SpaceEnd(c, p.cur) && t < j < |c| && c[t] == Quote
    requires c[j] == LineFeed || c[j] == Quote
    requires forall k :: t < k < j ==> c[k] != LineFeed && c[k] != Quote
    ensures c[j] == Quote ==>
      Scan(file, c, p) == (Valid(Token(Symbol, c[t + 1..j], Loc(file, p.row, t - p.bol))), Pos(j + 1, p.bol, p.row))
    ensures c[j] == LineFeed ==>
      Scan(file, c, p) == (UnclosedStr(Loc(file, p.row, t - p.bol)), Pos(j, p.bol, p.row))
  {
    QuoteEndIs(c, t, j);
  }

  /** `//` at the token start: the comment is skipped to the line feed
      that ends it, which the literal loop turns into a `NewLine` located
      at the `//` whose text runs from the `//` through that line feed. */
  lemma ScanComment(file: string, c: bytes, p: Pos, t: nat, j: nat)
    requires WellTerminated(c) && Inside(c, p)
    requires t == SpaceEnd(c, p.cur) && t < |c| && StartsWithAt(c, t, [Slash, Slash])
    requires t <= j < |c| && c[j] == LineFeed
    requires forall k :: t <= k < j ==> c[k] != LineFeed
    ensures Scan(file, c, p) ==
      (Valid(Token(NewLine, c[t..j + 1], Loc(file, p.row, t - p.bol))), Pos(j + 1, j + 1, p.row + 1))
  {
    IndexFromIs(c, t, LineFeed, j);
    FirstLiteralFrom(c, j, 0, 4);
  }

  /** Past the whitespace, a token that does not open a comment is
      decided by the dispatch on its first byte. */
  lemma ScanAt(file: string, c: bytes, p: Pos, t: nat)
    requires WellTerminated(c) && Inside(c, p)
    requires t == SpaceEnd(c, p.cur) && t < |c| && !StartsWithAt(c, t, [Slash, Slash])
    ensures Scan(file, c, p) == Dispatch(c, Pos(t, p.bol, p.row), t, Loc(file, p.row, t - p.bol))
  {
  }

  /** A byte that opens neither a string nor a symbol goes to the literal loop. */
  lemma DispatchLiteral(c: bytes, s: Pos, start: nat, loc: Loc)
    requires WellTerminated(c) && Inside(c, s) && start <= s.cur < |c|
    requires !IsSymbol(c[s.cur]) && c[s.cur] != Quote
    ensures Dispatch(c, s, start, loc) == ScanLiteral(c, s, start, loc)
  {
  }

  lemma LiteralFound(c: bytes, s: Pos, start: nat, loc: Loc, i: nat)
    requires WellTerminated(c) && Inside(c, s) && start <= s.cur < |c| && i < |Literals|
    requires FirstLiteral(c, s.cur, 0) == i
    ensures s.cur + |Literals[i].0| <= |c|
    ensures ScanLiteral(c, s, start, loc) ==
      (Valid(Token(Literals[i].1, Slice(c, start, s.cur + |Literals[i].0|), loc)), Skipped(c, s, |Literals[i].0|))
  {
    LiteralFits(c, s.cur, i);
  }

  lemma LiteralNotFound(c: bytes, s: Pos, start: nat, loc: Loc)
    requires WellTerminated(c) && Inside(c, s) && start <= s.cur < |c|
    requires FirstLiteral(c, s.cur, 0) == |Literals|
    ensures ScanLiteral(c, s, start, loc) == (Unknown(Slice(c, start, s.cur + 1), loc), Advance(c, s))
  {
  }

  /** Which literal the loop picks at byte `k`: the one whose bytes follow,
      since no two literals share a first byte. */
  lemma FirstLiteralIs(c: bytes, k: nat, i: nat)
    requires k < |c| && i < |Literals|
    requires k + |Literals[i].0| <= |c| && c[k..k + |Literals[i].0|] == Literals[i].0
    ensures FirstLiteral(c, k, 0) == i
  {
    var lit := Literals[i].0;
    StartsWithAtFits(c, k, lit);
    assert c[k] == c[k..k + |lit|][0] == lit[0];
    forall m | 0 <= m < i ensures !StartsWithAt(c, k, Literals[m].0) {
    }
    FirstLiteralFrom(c, k, 0, i);
  }

  lemma ScanLiteralAt(file: string, c: bytes, p: Pos, t: nat, i: nat)
    requires WellTerminated(c) && Inside(c, p) && i < |Literals|
    requires t == SpaceEnd(c, p.cur) && t + |Literals[i].0| <= |c|
    requires c[t..t + |Literals[i].0|] == Literals[i].0
    ensures Scan(file, c, p) ==
      (Valid(Token(Literals[i].1, Slice(c, t, t + |Literals[i].0|), Loc(file, p.row, t - p.bol))),
       Skipped(c, Pos(t, p.bol, p.row), |Literals[i].0|))
  {
    var lit := Literals[i].0;
    var s := Pos(t, p.bol, p.row);
    var loc := Loc(file, p.row, t - p.bol);
    assert c[t] == c[t..t + |lit|][0] == lit[0];
    ScanAt(file, c, p, t);
    DispatchLiteral(c, s, t, loc);
    FirstLiteralIs(c, t, i);
    LiteralFound(c, s, t, loc, i);
  }

  /** The fixed literals at the token start: each gives its own kind,
      its bytes as the text and the cursor just past it; only the line
      feed starts a new row. */
  lemma ScanRightArrow(file: string, c: bytes, p: Pos, t: nat)
    requires WellTerminated(c) && Inside(c, p)
    requires t == SpaceEnd(c, p.cur) && t + 1 < |c| && c[t] == Minus && c[t + 1] == Greater
    ensures Scan(file, c, p) == (Valid(Token(RightArrow, [Minus, Greater], Loc(file, p.row, t - p.bol))), Pos(t + 2, p.bol, p.row))
  {
    assert c[t..t + 2] == Literals[0].0;
    ScanLiteralAt(file, c, p, t, 0);
    assert Skipped(c, Pos(t, p.bol, p.row), 2) == Pos(t + 2, p.bol, p.row);
    assert Slice(c, t, t + 2) == [Minus, Greater];
  }
  lemma ScanLeftArrow(file: string, c: bytes, p: Pos, t: nat)
    requires WellTerminated(c) && Inside(c, p)
    requires t == SpaceEnd(c, p.cur) && t + 1 < |c| && c[t] == Less && c[t + 1] == Minus
    ensures Scan(file, c, p) == (Valid(Token(LeftArrow, [Less, Minus], Loc(file, p.row, t - p.bol))), Pos(t + 2, p.bol, p.row))
  {
    assert c[t..t + 2] == Literals[1].0;
    ScanLiteralAt(file, c, p, t, 1);
    assert Skipped(c, Pos(t, p.bol, p.row), 2) == Pos(t + 2, p.bol, p.row);
    assert Slice(c, t, t + 2) == [Less, Minus];
  }
  lemma ScanBra(file: string, c: bytes, p: Pos, t: nat)
    requires WellTerminated(c) && Inside(c, p)
    requires t == SpaceEnd(c, p.cur) && t < |c| && c[t] == OpenBracket
    ensures Scan(file, c, p) == (Valid(Token(Bra, [OpenBracket], Loc(file, p.row, t - p.bol))), Pos(t + 1, p.bol, p.row))
  {
    assert c[t..t + 1] == Literals[2].0;
    ScanLiteralAt(file, c, p, t, 2);
    assert Skipped(c, Pos(t, p.bol, p.row), 1) == Pos(t + 1, p.bol, p.row);
    assert Slice(c, t, t + 1) == [OpenBracket];
  }
  lemma ScanKet(file: string, c: bytes, p: Pos, t: nat)
    requires WellTerminated(c) && Inside(c, p)
    requires t == SpaceEnd(c, p.cur) && t < |c| && c[t] == CloseBracket
    ensures Scan(file, c, p) == (Valid(Token(Ket, [CloseBracket], Loc(file, p.row, t - p.bol))), Pos(t + 1, p.bol, p.row))
  {
    assert c[t..t + 1] == Literals[3].0;
    ScanLiteralAt(file, c, p, t, 3);
    assert Skipped(c, Pos(t, p.bol, p.row), 1) == Pos(t + 1, p.bol, p.row);
    assert Slice(c, t, t + 1) == [CloseBracket];
  }
  lemma ScanNewLine(file: string, c: bytes, p: Pos, t: nat)
    requires WellTerminated(c) && Inside(c, p)
    requires t == SpaceEnd(c, p.cur) && t < |c| && c[t] == LineFeed
    ensures Scan(file, c, p) == (Valid(Token(NewLine, [LineFeed], Loc(file, p.row, t - p.bol))), Pos(t + 1, t + 1, p.row + 1))
  {
    assert c[t..t + 1] == Literals[4].0;
    ScanLiteralAt(file, c, p, t, 4);
    assert Skipped(c, Pos(t, p.bol, p.row), 1) == Pos(t + 1, t + 1, p.row + 1);
    assert Slice(c, t, t + 1) == [LineFeed];
  }

  /** A byte that begins no symbol, string or literal is `Unknown`, with
      that one byte as its text: after the whitespace is skipped these are
      `>`, and `-` or `<` not followed by the rest of an arrow. */
  lemma ScanUnknown(file: string, c: bytes, p: Pos, t: nat)
    requires WellTerminated(c) && Inside(c, p)
    requires t == SpaceEnd(c, p.cur) && t + 1 < |c|
    requires c[t] == Greater || (c[t] == Minus && c[t + 1] != Greater) || (c[t] == Less && c[t + 1] != Minus)
    ensures Scan(file, c, p) == (Unknown([c[t]], Loc(file, p.row, t - p.bol)), Pos(t + 1, p.bol, p.row))
  {
    var s := Pos(t, p.bol, p.row);
    var loc := Loc(file, p.row, t - p.bol);
    ScanAt(file, c, p, t);
    DispatchLiteral(c, s, t, loc);
    FirstLiteralFrom(c, t, 0, |Literals|);
    LiteralNotFound(c, s, t, loc);
    assert Slice(c, t, t + 1) == [c[t]];
  }

  /** The literal loop never yields a `Symbol` or a `Cmd`. */
  lemma LiteralNotRun(c: bytes, s: Pos, start: nat, loc: Loc)
    requires WellTerminated(c) && Inside(c, s) && start <= s.cur < |c|
    ensures ScanLiteral(c, s, start, loc).0.Valid? ==>
      ScanLiteral(c, s, start, loc).0.tok.kind != Symbol && ScanLiteral(c, s, start, loc).0.tok.kind != Cmd
  {
  }

  /** Conversely, an unquoted `Symbol` or `Cmd` token is a maximal run of
      symbol bytes from the token start, and it is a `Cmd` exactly when it
      starts with `#`. */
  lemma ScanRunShape(file: string, c: bytes, p: Pos, t: nat)
    requires WellTerminated(c) && Inside(c, p)
    requires t == SpaceEnd(c, p.cur) && t < |c| && c[t] != Quote
    requires Scan(file, c, p).0.Valid? && Scan(file, c, p).0.tok.kind in {Symbol, Cmd}
    ensures Scan(file, c, p).0.tok.text == c[t..Scan(file, c, p).1.cur]
    ensures forall k :: t <= k < Scan(file, c, p).1.cur ==> IsSymbol(c[k])
    ensures Scan(file, c, p).1.cur == |c| || !IsSymbol(c[Scan(file, c, p).1.cur])
    ensures Scan(file, c, p).0.tok.kind == Cmd <==> c[t] == Hash
  {
    if StartsWithAt(c, t, [Slash, Slash]) {
      var j := IndexFrom(c, t, LineFeed);
      IndexFromNone(c, t, LineFeed);
      ScanComment(file, c, p, t, j);
    } else if IsSymbol(c[t]) {
      ScanRun(file, c, p, t, RunEnd(c, t + 1));
    } else {
      var loc := Loc(file, p.row, t - p.bol);
      ScanAt(file, c, p, t);
      DispatchLiteral(c, Pos(t, p.bol, p.row), t, loc);
      LiteralNotRun(c, Pos(t, p.bol, p.row), t, loc);
    }
  }

  function IndexOf(s: string, ch: char): (j: nat)
    ensures j <= |s| && (j < |s| ==> s[j] == ch)
    ensures forall k :: 0 <= k < j ==> s[k] != ch
  {
    if s == [] then 0 else if s[0] == ch then 0 else 1 + IndexOf(s[1..], ch)
  }

  lemma {:induction false} IndexOfFirst(s: string, ch: char, j: nat)
    requires j < |s| && s[j] == ch && forall k :: 0 <= k < j ==> s[k] != ch
    ensures IndexOf(s, ch) == j
  {
    if j > 0 {
      IndexOfFirst(s[1..], ch, j - 1);
    }
  }

  /** Reads a location back from its `Display` text, given the length of
      the file label: two decimal fields after it, both at least 1. */
  function DecodeLoc(s: string, n: nat): Option<Loc>
  {
    if n >= |s| || s[n] != ':' then None
    else
      var rest := s[n + 1..];
      var j := IndexOf(rest, ':');
      if j == |rest| then None
      else
        var a, b := rest[..j], rest[j + 1..];
        if !AllDigits(a) || !AllDigits(b) || DecValue(a) == 0 || DecValue(b) == 0 then None
        else Some(Loc(s[..n], DecValue(a) - 1, DecValue(b) - 1))
  }

  /** `Loc` prints as `file:row+1:col+1` (one-based on screen, zero-based
      inside), and the text determines the location again. */
  lemma LocTextDecodes(l: Loc)
    ensures DecodeLoc(LocText(l), |l.file|) == Some(l)
  {
    var d1, d2 := Dec(l.row + 1), Dec(l.col + 1);
    var rest := d1 + ":" + d2;
    assert LocText(l) == l.file + ":" + rest;
    assert LocText(l)[|l.file| + 1..] == rest;
    assert LocText(l)[..|l.file|] == l.file;
    ColonSplit(d1, d2);
    DecRoundTrip(l.row + 1);
    DecRoundTrip(l.col + 1);
  }

  /** The first colon of `a:b` is the one after `a` when `a` is all digits. */
  lemma ColonSplit(a: string, b: string)
    requires AllDigits(a)
    ensures IndexOf(a + ":" + b, ':') == |a|
    ensures (a + ":" + b)[..|a|] == a && (a + ":" + b)[|a| + 1..] == b
  {
    var s := a + ":" + b;
    forall k | 0 <= k < |a| ensures s[k] != ':' {
      assert s[k] == a[k];
    }
    IndexOfFirst(s, ':', |a|);
  }
}
