/** What the grammar accepts and what it builds: the fixed token shapes of
    an instruction and of the two commands, the symbol loops, the order in
    which statements are collected and which `#halt` wins, and where an
    `unreachable!` can come from. */
module ParserFacts {
  import opened Text
  import opened Lexer
  import opened Parser

  /** The result at `i` is a token of one of `kinds`. */
  predicate Fits(ts: Stream, i: nat, kinds: seq<TokenKind>)
    requires i < |ts|
  {
    ts[i].Valid? && ts[i].tok.kind in kinds
  }

  /** The kinds `parse_instr` asks for, one token after the other. */
  const InstrKinds: seq<seq<TokenKind>> :=
    [[Symbol], [Symbol], [Symbol], [LeftArrow, RightArrow], [Symbol], [NewLine]]

  /** The first `k` from `k0` on at which the result `ts[i + k]` does not fit
      `shape[k]`, or `|shape|` when all of them fit. */
  function FirstMismatch(ts: Stream, i: nat, shape: seq<seq<TokenKind>>, k0: nat): (k: nat)
    requires At(ts, i + k0) && k0 <= |shape|
    ensures k0 <= k <= |shape| && At(ts, i + k)
    ensures forall m :: k0 <= m < k ==> Fits(ts, i + m, shape[m])
    ensures k < |shape| ==> !Fits(ts, i + k, shape[k])
    decreases |shape| - k0
  {
    if k0 == |shape| || !Fits(ts, i + k0, shape[k0]) then k0 else FirstMismatch(ts, i, shape, k0 + 1)
  }

  /** An instruction is exactly six tokens of the kinds `InstrKinds`; the
      first one that does not fit is the error, reported with the kinds
      asked for at that place. */
  lemma InstructionGrammar(ts: Stream, i: nat, m: nat)
    requires At(ts, i) && m == FirstMismatch(ts, i, InstrKinds, 0)
    ensures m < 6 ==> Instruction(ts, i) == Failed(ParseErr(InstrKinds[m], ts[i + m]))
    ensures m == 6 ==>
      Instruction(ts, i) == Done((Instr(ts[i].tok.text, ts[i + 1].tok.text, ts[i + 2].tok.text,
                  (if ts[i + 3].tok.kind == LeftArrow then Left else Right), ts[i + 4].tok.text), i + 6))
  {
  }

  /** Conversely to `TokensLinked`: results each scanned from the state
      the previous scan left, all tokens but the last, are what the lexer
      hands out from the first state. */
  lemma {:induction false} LinkedTokens(file: string, c: bytes, ts: Stream, ps: seq<Pos>)
    requires Linked(file, c, ts, ps) && forall k :: 0 <= k < |ts| - 1 ==> ts[k].Valid?
    ensures Tokens(file, c, ps[0]) == ts
    decreases |ts|
  {
    assert Scan(file, c, ps[0]).0 == ts[0];
    if |ts| > 1 {
      var ts', ps' := ts[1..], ps[1..];
      assert Scan(file, c, ps[0]).1 == ps[1];
      forall k | 0 <= k < |ts'|
        ensures Scan(file, c, ps'[k]).0 == ts'[k] && (k + 1 < |ts'| ==> Scan(file, c, ps'[k]).1 == ps'[k + 1])
      {
        assert Scan(file, c, ps[k + 1]).0 == ts[k + 1];
      }
      LinkedTokens(file, c, ts', ps');
    }
  }

  /** The first index from `i` on whose result is not a `Symbol` token. */
  function SymbolsEnd(ts: Stream, i: nat): (j: nat)
    requires At(ts, i)
    ensures i <= j && At(ts, j) && !Fits(ts, j, [Symbol])
    ensures forall k :: i <= k < j ==> ts[k].Valid? && ts[k].tok.kind == Symbol
    decreases |ts| - i
  {
    if Fits(ts, i, [Symbol]) then SymbolsEnd(ts, i + 1) else i
  }

  /** The texts of the tokens `ts[i..j]`. */
  function Texts(ts: Stream, i: nat, j: nat): (r: seq<bytes>)
    requires i <= j <= |ts| && forall k :: i <= k < j ==> ts[k].Valid?
    ensures |r| == j - i && forall k :: i <= k < j ==> r[k - i] == ts[k].tok.text
    decreases j - i
  {
    if i == j then [] else [ts[i].tok.text] + Texts(ts, i + 1, j)
  }

  /** The cell loop of `#run` collects the texts of the maximal run of
      `Symbol` tokens; the token after it must be `]`, and is consumed. */
  lemma {:induction false} TapeCellsRun(ts: Stream, i: nat, j: nat)
    requires At(ts, i) && j == SymbolsEnd(ts, i)
    ensures Fits(ts, j, [Ket]) ==> TapeCells(ts, i) == Done((Texts(ts, i, j), j + 1))
    ensures !Fits(ts, j, [Ket]) ==> TapeCells(ts, i) == Failed(ParseErr([Symbol, Ket], ts[j]))
    decreases |ts| - i
  {
    if i < j {
      TapeCellsRun(ts, i + 1, j);
    }
  }

  /** The state loop of `#halt` collects the texts of the maximal run of
      `Symbol` tokens; the token after it must end the line, and is consumed. */
  lemma {:induction false} HaltStatesRun(ts: Stream, i: nat, j: nat)
    requires At(ts, i) && j == SymbolsEnd(ts, i)
    ensures Fits(ts, j, [NewLine]) ==> HaltStates(ts, i) == Done((Texts(ts, i, j), j + 1))
    ensures !Fits(ts, j, [NewLine]) ==> HaltStates(ts, i) == Failed(ParseErr([NewLine, Symbol], ts[j]))
    decreases |ts| - i
  {
    if i < j {
      HaltStatesRun(ts, i + 1, j);
    }
  }

  /** `#run` fails at its first token unless it is a `Cmd`, and at its
      second unless it is `[`. */
  lemma RunCommandStart(ts: Stream, i: nat)
    requires At(ts, i)
    ensures !Fits(ts, i, [Cmd]) ==> RunCommand(ts, i) == Failed(ParseErr([Cmd], ts[i]))
    ensures Fits(ts, i, [Cmd]) && !Fits(ts, i + 1, [Bra]) ==> RunCommand(ts, i) == Failed(ParseErr([Bra], ts[i + 1]))
  {
  }

  /** A `#run` after its `Cmd` and `[`: the cells are the texts of the
      maximal run of `Symbol` tokens, followed by `]`, the start state and
      the line's end; the first of these three that does not fit is the
      error, with the kinds asked for at that place. */
  lemma RunCommandGrammar(ts: Stream, i: nat, j: nat)
    requires At(ts, i) && Fits(ts, i, [Cmd]) && Fits(ts, i + 1, [Bra]) && j == SymbolsEnd(ts, i + 2)
    ensures !Fits(ts, j, [Ket]) ==> RunCommand(ts, i) == Failed(ParseErr([Symbol, Ket], ts[j]))
    ensures Fits(ts, j, [Ket]) && !Fits(ts, j + 1, [Symbol]) ==> RunCommand(ts, i) == Failed(ParseErr([Symbol], ts[j + 1]))
    ensures Fits(ts, j, [Ket]) && Fits(ts, j + 1, [Symbol]) && !Fits(ts, j + 2, [NewLine]) ==>
      RunCommand(ts, i) == Failed(ParseErr([NewLine], ts[j + 2]))
    ensures Fits(ts, j, [Ket]) && Fits(ts, j + 1, [Symbol]) && Fits(ts, j + 2, [NewLine]) ==>
      RunCommand(ts, i) == Done((RunCmd(Texts(ts, i + 2, j), ts[j + 1].tok.text), j + 3))
  {
    TapeCellsRun(ts, i + 2, j);
  }

  /** The runs among the statements, in order. */
  function RunsOf(ss: seq<Stmt>): seq<RunCmd>
  {
    if ss == [] then [] else (if ss[0].RunStmt? then [ss[0].run] else []) + RunsOf(ss[1..])
  }

  /** The instructions among the statements, in order. */
  function InstrsOf(ss: seq<Stmt>): seq<Instr>
  {
    if ss == [] then [] else (if ss[0].InstrStmt? then [ss[0].instr] else []) + InstrsOf(ss[1..])
  }

  predicate NoHalt(ss: seq<Stmt>)
  {
    forall k :: 0 <= k < |ss| ==> !ss[k].HaltStmt?
  }

  /** Runs and instructions are appended in the order they appear. */
  lemma {:induction false} CollectAppends(acc: Program, ss: seq<Stmt>)
    ensures Collect(acc, ss).runs == acc.runs + RunsOf(ss)
    ensures Collect(acc, ss).program == acc.program + InstrsOf(ss)
    decreases |ss|
  {
    if ss != [] {
      CollectAppends(Apply(acc, ss[0]), ss[1..]);
    }
  }

  /** Without `#halt` the halting states are left as they were. */
  lemma {:induction false} CollectKeepsHalt(acc: Program, ss: seq<Stmt>)
    requires NoHalt(ss)
    ensures Collect(acc, ss).halt == acc.halt
    decreases |ss|
  {
    if ss != [] {
      assert !ss[0].HaltStmt?;
      CollectKeepsHalt(Apply(acc, ss[0]), ss[1..]);
    }
  }

  /** The last `#halt` wins: its states are the halting states, whatever
      the earlier ones said. */
  lemma {:induction false} CollectLastHalt(acc: Program, ss: seq<Stmt>, k: nat)
    requires k < |ss| && ss[k].HaltStmt? && NoHalt(ss[k + 1..])
    ensures Collect(acc, ss).halt == ss[k].halt.states
    decreases |ss|
  {
    if k == 0 {
      CollectKeepsHalt(Apply(acc, ss[0]), ss[1..]);
    } else {
      assert ss[1..][k - 1] == ss[k] && ss[1..][k..] == ss[k + 1..];
      CollectLastHalt(Apply(acc, ss[0]), ss[1..], k - 1);
    }
  }

  /** `parse_source` succeeds exactly when the statements parse; then it
      holds every run and every instruction in source order, the states of
      the last `#halt`, and `HALT` alone when there is no `#halt` or the
      last one lists no state. */
  lemma ProgramOfShape(ts: Stream, ss: seq<Stmt>)
    requires Ended(ts) && Statements(ts, 0) == Done(ss)
    ensures ProgramOf(ts).Done?
    ensures ProgramOf(ts).value.runs == RunsOf(ss) && ProgramOf(ts).value.program == InstrsOf(ss)
    ensures NoHalt(ss) ==> ProgramOf(ts).value.halt == [DefaultHalt]
    ensures forall k :: 0 <= k < |ss| && ss[k].HaltStmt? && NoHalt(ss[k + 1..]) ==>
      ProgramOf(ts).value.halt == (if ss[k].halt.states == [] then [DefaultHalt] else ss[k].halt.states)
  {
    var acc := Program([], [], []);
    CollectAppends(acc, ss);
    if NoHalt(ss) {
      CollectKeepsHalt(acc, ss);
    }
    forall k | 0 <= k < |ss| && ss[k].HaltStmt? && NoHalt(ss[k + 1..])
      ensures ProgramOf(ts).value.halt == (if ss[k].halt.states == [] then [DefaultHalt] else ss[k].halt.states)
    {
      CollectLastHalt(acc, ss, k);
    }
  }

  /** A failed parse is a failed statement parse, and the other way round. */
  lemma ProgramOfFails(ts: Stream)
    requires Ended(ts)
    ensures !Statements(ts, 0).Done? ==> ProgramOf(ts) == Statements(ts, 0).PropagateFailure()
    ensures ProgramOf(ts).Done? <==> Statements(ts, 0).Done?
  {
  }

  /** A statement can start with: `#run`, `#halt`, a `Symbol` or a line feed. */
  predicate Opens(t: Token)
  {
    (t.kind == Cmd && (t.text == RunWord || t.text == HaltWord)) || t.kind == Symbol || t.kind == NewLine
  }

  /** Only the top level reaches `unreachable!`, and only on a token at
      the start of a statement that opens none: an arrow, a bracket, or a
      `Cmd` other than `#run` and `#halt`.  A non-token result there is a
      parse error expecting `Symbol` or `Cmd`. */
  lemma {:induction false} StatementsUnreachable(ts: Stream, i: nat)
    requires At(ts, i)
    ensures Statements(ts, i).Unreachable? ==>
      exists k :: i <= k < |ts| && ts[k] == TokenResult.Valid(Statements(ts, i).tok) && !Opens(Statements(ts, i).tok)
    ensures !ts[i].Valid? && !ts[i].Eof? ==> Statements(ts, i) == Failed(ParseErr([Symbol, Cmd], ts[i]))
    decreases |ts| - i
  {
    if ts[i].Valid? {
      var s := Statement(ts, i);
      if s.Done? {
        StatementsUnreachable(ts, s.value.1);
      }
    }
  }

  /** `Display` of a run: the cells separated by single spaces between
      `#run [ ` and ` ] `, then the start state. */
  lemma RunTextJoin(r: RunCmd)
    requires |r.tape| > 0
    ensures RunText(r) == "#run [ " + Join(CellTexts(r.tape), " ") + " ] " + Chars(r.state)
  {
    var n := |r.tape|;
    EachThenJoin(CellTexts(r.tape[..n - 1]), Chars(r.tape[n - 1]), " ");
  }

  /** `Display` of a parse error: the location of the result met, then
      the kinds asked for separated by ` or `, then what was met. */
  lemma ErrTextJoin(e: ParseErr)
    requires |e.expected| > 0
    ensures ErrText(e) == LocText(ResultLoc(e.got)) + ": Expected " + Join(KindNames(e.expected), " or ")
      + " but got " + GotText(e.got)
  {
    var ks := e.expected;
    EachThenJoin(KindNames(ks[..|ks| - 1]), KindStr(ks[|ks| - 1]), " or ");
  }
}
