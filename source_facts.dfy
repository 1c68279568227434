/** The lexer and the parser together, on whole source buffers: a short
    source whose parse fails, how that error is printed, and the round trip
    of an instruction through its `Display` text. */
module SourceFacts {
  import opened Text
  import opened Lexer
  import opened LexerFacts
  import opened Parser
  import opened ParserFacts

  /** `A 0` and a line feed: two symbols, then the line ends where the
      written symbol was expected. */
  const ShortInstr: bytes := Bytes("A 0\n")

  lemma ShortInstrTokens(file: string)
    ensures Tokens(file, ShortInstr, Pos(0, 0, 0)) ==
      [TokenResult.Valid(Token(Symbol, [65], Loc(file, 0, 0))), TokenResult.Valid(Token(Symbol, [48], Loc(file, 0, 2))),
       TokenResult.Valid(Token(NewLine, [10], Loc(file, 0, 3))), Eof(Loc(file, 1, 0))]
  {
    ShortInstrLineEnd(file);
    ShortInstrSymbols(file);
  }

  /** The two symbols, each ended by the byte after it. */
  lemma ShortInstrSymbols(file: string)
    ensures Scan(file, ShortInstr, Pos(0, 0, 0)) == (TokenResult.Valid(Token(Symbol, [65], Loc(file, 0, 0))), Pos(1, 0, 0))
    ensures Scan(file, ShortInstr, Pos(1, 0, 0)) == (TokenResult.Valid(Token(Symbol, [48], Loc(file, 0, 2))), Pos(3, 0, 0))
  {
    var c := ShortInstr;
    SpaceEndIs(c, 0, 0);
    assert c[0..1] == [65];
    ScanRunIs(file, c, Pos(0, 0, 0), 0, 1);
    SpaceEndIs(c, 1, 2);
    assert c[2..3] == [48];
    ScanRunIs(file, c, Pos(1, 0, 0), 2, 3);
  }

  /** The line feed, then the end of the buffer on the next row. */
  lemma ShortInstrLineEnd(file: string)
    ensures Tokens(file, ShortInstr, Pos(3, 0, 0)) == [TokenResult.Valid(Token(NewLine, [10], Loc(file, 0, 3))), Eof(Loc(file, 1, 0))]
  {
    var c := ShortInstr;
    SpaceEndIs(c, 4, 4);
    assert Tokens(file, c, Pos(4, 4, 1)) == [Eof(Loc(file, 1, 0))];
    SpaceEndIs(c, 3, 3);
    ScanNewLine(file, c, Pos(3, 0, 0), 3);
  }

  /** The instruction stops at the line feed, whose location is row 0,
      column 3, and the error says a `Symbol` was expected there. */
  lemma ShortInstrFails(file: string)
    ensures SourceProgram(file, ShortInstr) ==
      Failed(ParseErr([Symbol], TokenResult.Valid(Token(NewLine, [10], Loc(file, 0, 3)))))
  {
    var ts := Tokens(file, ShortInstr, Pos(0, 0, 0));
    ShortInstrTokens(file);
    InstructionGrammar(ts, 0, FirstMismatch(ts, 0, InstrKinds, 0));
  }

  /** The error printed one-based, with the line feed shown escaped:
      `file:1:4: Expected Symbol but got new line "\n"`. */
  lemma ShortInstrMessage(file: string)
    ensures ErrText(ParseErr([Symbol], TokenResult.Valid(Token(NewLine, [10], Loc(file, 0, 3))))) ==
      file + ":1:4" + ": Expected " + "Symbol" + " but got " + "new line \"\\n\""
  {
    var loc := Loc(file, 0, 3);
    var got := TokenResult.Valid(Token(NewLine, [10], loc));
    LineFeedShown();
    assert GotText(got) == "new line \"\\n\"";
    assert LocText(loc) == file + ":1:4" by {
      assert Dec(1) == "1" && Dec(4) == "4";
      assert ":" + "1" + ":" + "4" == ":1:4";
    }
    var head := LocText(loc) + ": Expected ";
    assert head + EachThen(KindNames([]), " or ") == head;
  }

  /** A line feed token's text in a diagnostic: `"\n"`, quotes included. */
  lemma LineFeedShown()
    ensures DebugStr(Chars([10])) == "\"\\n\""
  {
    assert Chars([10]) == "\n";
    assert EscapeAll("\n") == "\\n";
  }

  /** A field that `Display` of `Instr` writes and the lexer reads back as
      the same `Symbol`: symbol bytes only, not starting with `#` (that
      would be a `Cmd`) nor with `//` (that would open a comment). */
  predicate PlainSymbol(f: bytes)
  {
    |f| > 0 && (forall k :: 0 <= k < |f| ==> IsSymbol(f[k])) && f[0] != Hash
    && !(|f| > 1 && f[0] == Slash && f[1] == Slash)
  }

  predicate PlainInstr(i: Instr)
  {
    PlainSymbol(i.state) && PlainSymbol(i.read) && PlainSymbol(i.write) && PlainSymbol(i.next)
  }

  function ArrowBytes(d: Dir): bytes
  {
    if d == Left then [Less, Minus] else [Minus, Greater]
  }

  /** The bytes of `Display` of `Instr`. */
  function InstrBytes(i: Instr): bytes
  {
    i.state + [Space] + i.read + [Space] + i.write + [Space] + ArrowBytes(i.dir) + [Space] + i.next
  }

  /** The bytes are those of the text. */
  lemma InstrBytesText(i: Instr)
    ensures Chars(InstrBytes(i)) == InstrText(i)
  {
    var sp: bytes := [Space];
    assert Chars(sp) == " ";
    assert Chars(ArrowBytes(i.dir)) == DirText(i.dir);
    CharsAppend(i.state, sp);
    CharsAppend(i.state + sp, i.read);
    CharsAppend(i.state + sp + i.read, sp);
    CharsAppend(i.state + sp + i.read + sp, i.write);
    CharsAppend(i.state + sp + i.read + sp + i.write, sp);
    CharsAppend(i.state + sp + i.read + sp + i.write + sp, ArrowBytes(i.dir));
    CharsAppend(i.state + sp + i.read + sp + i.write + sp + ArrowBytes(i.dir), sp);
    CharsAppend(i.state + sp + i.read + sp + i.write + sp + ArrowBytes(i.dir) + sp, i.next);
  }

  /** No space or one space, then a plain field ended by a byte that is
      no symbol byte: the field is scanned as a `Symbol` of exactly its bytes. */
  lemma FieldScan(file: string, c: bytes, cur: nat, t: nat, j: nat, f: bytes)
    requires WellTerminated(c) && j == t + |f| && j < |c| && PlainSymbol(f)
    requires cur == t || (cur + 1 == t && c[cur] == Space)
    requires c[t..j] == f && !IsSymbol(c[j])
    ensures Scan(file, c, Pos(cur, 0, 0)) == (TokenResult.Valid(Token(Symbol, f, Loc(file, 0, t))), Pos(j, 0, 0))
  {
    assert c[t] == f[0];
    SpaceEndIs(c, cur, t);
    forall k | t <= k < j ensures IsSymbol(c[k]) {
      assert c[k] == f[k - t];
    }
    if c[t] == Slash {
      assert c[t + 1] != Slash by {
        if |f| > 1 {
          assert c[t + 1] == f[1];
        }
      }
    }
    ScanRunIs(file, c, Pos(cur, 0, 0), t, j);
  }

  /** A space, then an arrow. */
  lemma ArrowScan(file: string, c: bytes, cur: nat, t: nat, j: nat, d: Dir)
    requires WellTerminated(c) && t == cur + 1 && j == cur + 3 && j < |c| && c[cur] == Space && c[t..j] == ArrowBytes(d)
    ensures Scan(file, c, Pos(cur, 0, 0)) ==
      (TokenResult.Valid(Token(if d == Left then LeftArrow else RightArrow, ArrowBytes(d), Loc(file, 0, t))), Pos(j, 0, 0))
  {
    assert c[t] == ArrowBytes(d)[0] && c[t + 1] == ArrowBytes(d)[1];
    SpaceEndIs(c, cur, t);
    if d == Left {
      ScanLeftArrow(file, c, Pos(cur, 0, 0), t);
    } else {
      ScanRightArrow(file, c, Pos(cur, 0, 0), t);
    }
  }

  /** The line feed that ends the buffer, then `Eof` on the next row. */
  lemma LastLineScan(file: string, c: bytes, t: nat)
    requires WellTerminated(c) && t == |c| - 1
    ensures Scan(file, c, Pos(t, 0, 0)) == (TokenResult.Valid(Token(NewLine, [LineFeed], Loc(file, 0, t))), Pos(t + 1, t + 1, 1))
    ensures Scan(file, c, Pos(t + 1, t + 1, 1)).0 == Eof(Loc(file, 1, 0))
  {
    SpaceEndIs(c, t + 1, t + 1);
    SpaceEndIs(c, t, t);
    ScanNewLine(file, c, Pos(t, 0, 0), t);
  }

  /** Where the pieces of an instruction line lie: the state at 0, the
      read symbol after the first space at `a`, the written symbol after
      the second at `b`, the arrow after the third at `d`, the next state
      after the fourth, and the line feed at `e`. */
  lemma InstrLayout(i: Instr, c: bytes, a: nat, b: nat, d: nat, e: nat)
    requires c == InstrBytes(i) + [LineFeed]
    requires a == |i.state| && b == a + 1 + |i.read| && d == b + 1 + |i.write| && e == d + 4 + |i.next|
    ensures |c| == e + 1 && c[e] == LineFeed
    ensures c[0..a] == i.state && c[a] == Space
    ensures c[a + 1..b] == i.read && c[b] == Space
    ensures c[b + 1..d] == i.write && c[d] == Space
    ensures c[d + 1..d + 3] == ArrowBytes(i.dir) && c[d + 3] == Space
    ensures c[d + 4..e] == i.next
  {
    var sp: bytes := [Space];
    var p1 := i.state + sp;
    var p2 := p1 + i.read + sp;
    var p3 := p2 + i.write + sp;
    var p4 := p3 + ArrowBytes(i.dir) + sp;
    assert c == p4 + i.next + [LineFeed];
  }

  /** The results the lexer hands out for an instruction line. */
  function InstrStream(file: string, i: Instr): Stream
  {
    var a := |i.state|;
    var b := a + 1 + |i.read|;
    var d := b + 1 + |i.write|;
    var e := d + 4 + |i.next|;
    [TokenResult.Valid(Token(Symbol, i.state, Loc(file, 0, 0))),
     TokenResult.Valid(Token(Symbol, i.read, Loc(file, 0, a + 1))),
     TokenResult.Valid(Token(Symbol, i.write, Loc(file, 0, b + 1))),
     TokenResult.Valid(Token(if i.dir == Left then LeftArrow else RightArrow, ArrowBytes(i.dir), Loc(file, 0, d + 1))),
     TokenResult.Valid(Token(Symbol, i.next, Loc(file, 0, d + 4))),
     TokenResult.Valid(Token(NewLine, [LineFeed], Loc(file, 0, e))),
     Eof(Loc(file, 1, 0))]
  }

  /** The line is lexed field by field: four symbols and an arrow, the
      line feed, and the end of the buffer. */
  lemma InstrTokens(file: string, i: Instr)
    requires PlainInstr(i)
    ensures Tokens(file, InstrBytes(i) + [LineFeed], Pos(0, 0, 0)) == InstrStream(file, i)
  {
    var c := InstrBytes(i) + [LineFeed];
    var a := |i.state|;
    var b := a + 1 + |i.read|;
    var d := b + 1 + |i.write|;
    var e := d + 4 + |i.next|;
    InstrLayout(i, c, a, b, d, e);
    LineTokens(file, c, i, a, b, d, e);
  }

  /** The results for one instruction line parse back to that instruction
      alone, with the default halting state. */
  lemma InstrStreamParses(file: string, i: Instr)
    ensures Ended(InstrStream(file, i))
    ensures ProgramOf(InstrStream(file, i)) == Done(Program([], [DefaultHalt], [i]))
  {
    var ts := InstrStream(file, i);
    assert Expect(ts, 0, [Symbol]) == Done((ts[0].tok, 1));
    assert Expect(ts, 1, [Symbol]) == Done((ts[1].tok, 2));
    assert Expect(ts, 2, [Symbol]) == Done((ts[2].tok, 3));
    assert Expect(ts, 3, [LeftArrow, RightArrow]) == Done((ts[3].tok, 4));
    assert Expect(ts, 4, [Symbol]) == Done((ts[4].tok, 5));
    assert Expect(ts, 5, [NewLine]) == Done((ts[5].tok, 6));
    assert Instr(ts[0].tok.text, ts[1].tok.text, ts[2].tok.text, if ts[3].tok.kind == LeftArrow then Left else Right,
                 ts[4].tok.text) == i;
    assert Statement(ts, 0) == Done((InstrStmt(i), 6));
    assert Statements(ts, 6) == Done([]);
    assert [InstrStmt(i)] + [] == [InstrStmt(i)];
    assert Statements(ts, 0) == Done([InstrStmt(i)]);
    assert [InstrStmt(i)][1..] == [];
    var acc := Program([], [], []);
    assert acc.program + [i] == [i];
    assert Collect(acc, [InstrStmt(i)]) == Program([], [], [i]);
  }

  /** `Display` of a plain instruction, as a source line, is parsed back
      to a program holding that instruction alone. */
  lemma InstrRoundTrip(file: string, i: Instr)
    requires PlainInstr(i)
    ensures Chars(InstrBytes(i) + [LineFeed]) == InstrText(i) + "\n"
    ensures SourceProgram(file, InstrBytes(i) + [LineFeed]) == Done(Program([], [DefaultHalt], [i]))
  {
    InstrBytesText(i);
    CharsAppend(InstrBytes(i), [LineFeed]);
    InstrTokens(file, i);
    InstrStreamParses(file, i);
  }

  /** Where the pieces of an instruction line lie in `c`. */
  predicate Layout(c: bytes, i: Instr, a: nat, b: nat, d: nat, e: nat)
  {
    PlainInstr(i) && WellTerminated(c)
    && a == |i.state| && b == a + 1 + |i.read| && d == b + 1 + |i.write| && e == d + 4 + |i.next|
    && |c| == e + 1 && c[e] == LineFeed
    && c[0..a] == i.state && c[a] == Space
    && c[a + 1..b] == i.read && c[b] == Space
    && c[b + 1..d] == i.write && c[d] == Space
    && c[d + 1..d + 3] == ArrowBytes(i.dir) && c[d + 3] == Space
    && c[d + 4..e] == i.next
  }

  lemma LineTokens(file: string, c: bytes, i: Instr, a: nat, b: nat, d: nat, e: nat)
    requires Layout(c, i, a, b, d, e)
    ensures Tokens(file, c, Pos(0, 0, 0)) == InstrStream(file, i)
  {
    LineFront(file, c, i, a, b, d, e);
    LineBack(file, c, i, a, b, d, e);
    InstrStreamHalves(file, i);
  }

  /** The results for the state, read and write fields. */
  function FrontStream(file: string, i: Instr): Stream
  {
    [TokenResult.Valid(Token(Symbol, i.state, Loc(file, 0, 0))),
     TokenResult.Valid(Token(Symbol, i.read, Loc(file, 0, |i.state| + 1))),
     TokenResult.Valid(Token(Symbol, i.write, Loc(file, 0, |i.state| + |i.read| + 2)))]
  }

  /** The results for the arrow, the next state, the line feed and the end. */
  function BackStream(file: string, i: Instr): Stream
  {
    var d := |i.state| + |i.read| + |i.write| + 2;
    [TokenResult.Valid(Token(if i.dir == Left then LeftArrow else RightArrow, ArrowBytes(i.dir), Loc(file, 0, d + 1))),
     TokenResult.Valid(Token(Symbol, i.next, Loc(file, 0, d + 4))),
     TokenResult.Valid(Token(NewLine, [LineFeed], Loc(file, 0, d + 4 + |i.next|))),
     Eof(Loc(file, 1, 0))]
  }

  lemma InstrStreamHalves(file: string, i: Instr)
    ensures InstrStream(file, i) == FrontStream(file, i) + BackStream(file, i)
  {
  }

  /** The state, read and write fields. */
  lemma LineFront(file: string, c: bytes, i: Instr, a: nat, b: nat, d: nat, e: nat)
    requires Layout(c, i, a, b, d, e)
    ensures Tokens(file, c, Pos(0, 0, 0)) == FrontStream(file, i) + Tokens(file, c, Pos(d, 0, 0))
  {
    var r0 := TokenResult.Valid(Token(Symbol, i.state, Loc(file, 0, 0)));
    var r1 := TokenResult.Valid(Token(Symbol, i.read, Loc(file, 0, a + 1)));
    var r2 := TokenResult.Valid(Token(Symbol, i.write, Loc(file, 0, b + 1)));
    assert FrontStream(file, i) == [r0, r1, r2];
    FieldScan(file, c, 0, 0, a, i.state);
    FieldScan(file, c, a, a + 1, b, i.read);
    FieldScan(file, c, b, b + 1, d, i.write);
    var rest := Tokens(file, c, Pos(d, 0, 0));
    TokensStep(file, c, Pos(b, 0, 0), Pos(d, 0, 0), r2, rest);
    TokensStep(file, c, Pos(a, 0, 0), Pos(b, 0, 0), r1, [r2] + rest);
    TokensStep(file, c, Pos(0, 0, 0), Pos(a, 0, 0), r0, [r1] + ([r2] + rest));
    ThreeThen(r0, r1, r2, rest);
  }

  lemma ThreeThen<T>(r0: T, r1: T, r2: T, rest: seq<T>)
    ensures [r0] + ([r1] + ([r2] + rest)) == [r0, r1, r2] + rest
  {
  }

  /** The arrow, the next state, the line feed and the end. */
  lemma LineBack(file: string, c: bytes, i: Instr, a: nat, b: nat, d: nat, e: nat)
    requires Layout(c, i, a, b, d, e)
    ensures Tokens(file, c, Pos(d, 0, 0)) == BackStream(file, i)
  {
    var r3 := TokenResult.Valid(Token(if i.dir == Left then LeftArrow else RightArrow, ArrowBytes(i.dir), Loc(file, 0, d + 1)));
    var r4 := TokenResult.Valid(Token(Symbol, i.next, Loc(file, 0, d + 4)));
    var r5 := TokenResult.Valid(Token(NewLine, [LineFeed], Loc(file, 0, e)));
    var r6 := Eof(Loc(file, 1, 0));
    assert BackStream(file, i) == [r3, r4, r5, r6];
    ArrowScan(file, c, d, d + 1, d + 3, i.dir);
    FieldScan(file, c, d + 3, d + 4, e, i.next);
    LastLineScan(file, c, e);
    assert Tokens(file, c, Pos(e + 1, e + 1, 1)) == [r6];
    TokensStep(file, c, Pos(e, 0, 0), Pos(e + 1, e + 1, 1), r5, [r6]);
    TokensStep(file, c, Pos(d + 3, 0, 0), Pos(e, 0, 0), r4, [r5] + [r6]);
    TokensStep(file, c, Pos(d, 0, 0), Pos(d + 3, 0, 0), r3, [r4] + ([r5] + [r6]));
    OneThenThree(r3, r4, r5, r6);
  }

  lemma OneThenThree<T>(r3: T, r4: T, r5: T, r6: T)
    ensures [r3] + ([r4] + ([r5] + [r6])) == [r3, r4, r5, r6]
  {
  }

  /** A token scanned from `p`, then the stream from where it stopped. */
  lemma TokensStep(file: string, c: bytes, p: Pos, q: Pos, r: TokenResult, rest: Stream)
    requires WellTerminated(c) && Inside(c, p) && r.Valid?
    requires Scan(file, c, p) == (r, q) && Tokens(file, c, q) == rest
    ensures Tokens(file, c, p) == [r] + rest
  {
  }
}
