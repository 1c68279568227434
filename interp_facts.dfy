/** What the interpreter does, step by step and run by run: a step
    writes only the cell under the head, the halt test looks at the new
    state only, the tape grows by at most one filler cell per step, every
    run makes at least one step, the runs are executed in order until one
    does not halt, and more steps never change a run that has ended. */
module InterpFacts {
  import opened Text
  import opened Results
  import opened Parser
  import opened Interp

  /** The trace `t` with the writes `acc` made in front of it. */
  function Shifted(acc: seq<Piece>, t: Trace): Trace
  {
    Trace(acc + t.out, t.outcome, t.last)
  }

  /** One step: the cell under the head (and no other) gets `write`, the
      state becomes `next_state`, and the head moves by one, except that a
      left move from cell 0 underflows.  The halt test is on the new state;
      only a step that goes on can grow the tape, by exactly one cell of
      the filler when the head has run off the right end. */
  lemma StepLaws(m: Machine, ins: Instr, filler: bytes, halt: seq<bytes>, r: StepResult)
    requires m.head < |m.tape| && r == Step(m, ins, filler, halt)
    ensures r.HeadUnderflow? <==> ins.dir == Left && m.head == 0
    ensures r.Stop? <==> !(ins.dir == Left && m.head == 0) && ins.next in halt
    ensures r.m.state == ins.next
    ensures !r.HeadUnderflow? ==> r.m.head == (if ins.dir == Left then m.head - 1 else m.head + 1)
    ensures |m.tape| <= |r.m.tape| && r.m.tape[m.head] == ins.write
    ensures forall k :: 0 <= k < |m.tape| && k != m.head ==> r.m.tape[k] == m.tape[k]
    ensures !r.Continue? ==> |r.m.tape| == |m.tape|
    ensures r.Continue? ==> r.m.head < |r.m.tape| && |r.m.tape| == (if r.m.head < |m.tape| then |m.tape| else r.m.head + 1)
    ensures r.Continue? && |m.tape| < |r.m.tape| ==> r.m.tape[|m.tape|] == filler
  {
  }

  /** The writes made before the loop are kept in front of what it writes;
      what the loop does does not depend on them. */
  lemma {:induction false} StepsAcc(prog: seq<Instr>, halt: seq<bytes>, filler: bytes, acc: seq<Piece>, m: Machine, ins: Instr,
                                    fuel: nat)
    requires m.head < |m.tape|
    ensures Steps(prog, halt, filler, acc, m, ins, fuel) == Shifted(acc, Steps(prog, halt, filler, [], m, ins, fuel))
    decreases fuel
  {
    if fuel > 0 {
      var shown := [InstrLine(ins), TapeLines(m.tape, m.head)] + [Flush];
      var r := Step(m, ins, filler, halt);
      if r.Continue? {
        var m' := r.m;
        var found := Lookup(prog, m'.state, m'.tape[m'.head]);
        if found.Some? {
          var k := found.value;
          assert [] + [InstrLine(ins), TapeLines(m.tape, m.head)] + [Flush] == shown;
          assert Steps(prog, halt, filler, [], m, ins, fuel) == Steps(prog, halt, filler, shown, m', prog[k], fuel - 1);
          StepsAcc(prog, halt, filler, shown, m', prog[k], fuel - 1);
          StepsAcc(prog, halt, filler, acc + shown, m', prog[k], fuel - 1);
          assert acc + [InstrLine(ins), TapeLines(m.tape, m.head)] + [Flush] == acc + shown;
        }
      }
    }
  }

  /** A run's trace does not depend on what earlier runs wrote. */
  lemma RunTraceAcc(p: Program, acc: seq<Piece>, run: RunCmd, fuel: nat)
    ensures RunTrace(p, acc, run, fuel) == Shifted(acc, RunTrace(p, [], run, fuel))
  {
    if |run.tape| > 0 {
      var found := Lookup(p.program, run.state, run.tape[0]);
      if found.Some? {
        var m := Machine(run.tape, run.state, 0);
        var filler := run.tape[|run.tape| - 1];
        var ins := p.program[found.value];
        StepsAcc(p.program, p.halt, filler, acc + [RunLine(run)], m, ins, fuel);
        StepsAcc(p.program, p.halt, filler, [RunLine(run)], m, ins, fuel);
        assert [] + [RunLine(run)] == [RunLine(run)];
      }
    }
  }

  /** The writes made before the loop are the first writes of its trace. */
  lemma StepsPrefix(prog: seq<Instr>, halt: seq<bytes>, filler: bytes, acc: seq<Piece>, m: Machine, ins: Instr, fuel: nat,
                    t: Trace)
    requires m.head < |m.tape| && t == Steps(prog, halt, filler, acc, m, ins, fuel)
    ensures |acc| <= |t.out| && t.out[..|acc|] == acc
  {
    StepsAcc(prog, halt, filler, acc, m, ins, fuel);
    assert t.out == acc + Steps(prog, halt, filler, [], m, ins, fuel).out;
  }

  /** Every run makes at least one step: the start state is never tested
      for halting, and the first instruction is the one for the start state
      and cell 0.  The run line, that instruction and the initial tape with
      the head on cell 0 are its first writes. */
  lemma FirstStep(p: Program, run: RunCmd, fuel: nat, k: nat)
    requires |run.tape| > 0 && Lookup(p.program, run.state, run.tape[0]) == Some(k) && fuel > 0
    ensures |RunTrace(p, [], run, fuel).out| >= 3
    ensures RunTrace(p, [], run, fuel).out[..3] == [RunLine(run), InstrLine(p.program[k]), TapeLines(run.tape, 0)]
  {
    var m := Machine(run.tape, run.state, 0);
    var filler := run.tape[|run.tape| - 1];
    var ins := p.program[k];
    var shown := [RunLine(run)] + [InstrLine(ins), TapeLines(m.tape, m.head)];
    assert shown == [RunLine(run), InstrLine(p.program[k]), TapeLines(run.tape, 0)];
    assert [] + [RunLine(run)] == [RunLine(run)];
    var t := Steps(p.program, p.halt, filler, [RunLine(run)], m, ins, fuel);
    assert RunTrace(p, [], run, fuel) == t;
    var r := Step(m, ins, filler, p.halt);
    if r.Continue? && Lookup(p.program, r.m.state, r.m.tape[r.m.head]).Some? {
      var found := Lookup(p.program, r.m.state, r.m.tape[r.m.head]);
      StepsPrefix(p.program, p.halt, filler, shown + [Flush], r.m, p.program[found.value], fuel - 1, t);
      assert (shown + [Flush])[..3] == shown;
    } else if r.Stop? {
      assert t.out == shown + [TapeLines(r.m.tape, r.m.head), HaltLine(r.m.state), BlankLine];
    } else if r.Continue? {
      assert t.out == shown + [Flush];
    } else {
      assert t.out == shown;
    }
  }

  /** When no instruction is for the start state and cell 0, the run ends
      after its header, and nothing it wrote has been flushed. */
  lemma FirstLookupFails(p: Program, acc: seq<Piece>, run: RunCmd, fuel: nat)
    requires |run.tape| > 0 && Lookup(p.program, run.state, run.tape[0]).None?
    ensures RunTrace(p, acc, run, fuel) == Trace(acc + [RunLine(run)], Undefined(run.state, run.tape[0]), Machine(run.tape, run.state, 0))
    ensures Flushed(RunTrace(p, acc, run, fuel).out) == Flushed(acc)
  {
    var out := acc + [RunLine(run)];
    assert out[|out| - 1] != Flush && out[..|out| - 1] == acc;
  }

  /** How the loop ends.  A halt is a step into a halting state and writes
      the final tape, the halt line and an empty line; an undefined pair is
      the new state and the symbol under the head, for which no instruction
      exists, after a flush; an underflow is a left move from cell 0.  The
      tape never shrinks and grows by at most one cell per step. */
  lemma {:induction false} StepsEnd(prog: seq<Instr>, halt: seq<bytes>, filler: bytes, acc: seq<Piece>, m: Machine, ins: Instr,
                                    fuel: nat, t: Trace)
    requires m.head < |m.tape| && t == Steps(prog, halt, filler, acc, m, ins, fuel)
    ensures t.outcome == Halted || t.outcome.Undefined? || t.outcome == Underflow || t.outcome == OutOfFuel
    ensures t.outcome == Halted ==>
      (|t.out| >= 3 && t.last.state in halt &&
       t.out[|t.out| - 3..] == [TapeLines(t.last.tape, t.last.head), HaltLine(t.last.state), BlankLine])
    ensures t.outcome.Undefined? ==>
      (t.last.head < |t.last.tape| && t.outcome == Undefined(t.last.state, t.last.tape[t.last.head]) &&
       Lookup(prog, t.last.state, t.last.tape[t.last.head]).None? && |t.out| > 0 && t.out[|t.out| - 1] == Flush)
    ensures t.outcome == OutOfFuel ==> t.last.head < |t.last.tape|
    ensures t.outcome == Underflow ==> t.last.head == 0
    ensures |m.tape| <= |t.last.tape| <= |m.tape| + fuel
    decreases fuel
  {
    if fuel > 0 {
      var r := Step(m, ins, filler, halt);
      StepLaws(m, ins, filler, halt, r);
      if r.Continue? {
        var m' := r.m;
        var found := Lookup(prog, m'.state, m'.tape[m'.head]);
        if found.Some? {
          var acc' := acc + [InstrLine(ins), TapeLines(m.tape, m.head)] + [Flush];
          StepsEnd(prog, halt, filler, acc', m', prog[found.value], fuel - 1, t);
        }
      }
    }
  }

  /** Once a run has ended, more steps change nothing. */
  lemma {:induction false} StepsFuel(prog: seq<Instr>, halt: seq<bytes>, filler: bytes, acc: seq<Piece>, m: Machine, ins: Instr,
                                     fuel: nat, more: nat)
    requires m.head < |m.tape| && fuel <= more
    requires Steps(prog, halt, filler, acc, m, ins, fuel).outcome != OutOfFuel
    ensures Steps(prog, halt, filler, acc, m, ins, more) == Steps(prog, halt, filler, acc, m, ins, fuel)
    decreases fuel
  {
    var r := Step(m, ins, filler, halt);
    if r.Continue? {
      var m' := r.m;
      var found := Lookup(prog, m'.state, m'.tape[m'.head]);
      if found.Some? {
        var acc' := acc + [InstrLine(ins), TapeLines(m.tape, m.head)] + [Flush];
        StepsFuel(prog, halt, filler, acc', m', prog[found.value], fuel - 1, more - 1);
      }
    }
  }

  /** The same for a whole run. */
  lemma RunTraceFuel(p: Program, acc: seq<Piece>, run: RunCmd, fuel: nat, more: nat)
    requires fuel <= more && RunTrace(p, acc, run, fuel).outcome != OutOfFuel
    ensures RunTrace(p, acc, run, more) == RunTrace(p, acc, run, fuel)
  {
    if |run.tape| > 0 {
      var found := Lookup(p.program, run.state, run.tape[0]);
      if found.Some? {
        StepsFuel(p.program, p.halt, run.tape[|run.tape| - 1], acc + [RunLine(run)], Machine(run.tape, run.state, 0),
                  p.program[found.value], fuel, more);
      }
    }
  }

  /** The writes of the runs `rs`, each run on its own, one after the other. */
  function Outs(p: Program, rs: seq<RunCmd>, fuel: nat): seq<Piece>
    decreases |rs|
  {
    if rs == [] then [] else RunTrace(p, [], rs[0], fuel).out + Outs(p, rs[1..], fuel)
  }

  /** The session after the first run, stated with that run's own trace. */
  lemma RunsFromStep(p: Program, acc: seq<Piece>, rs: seq<RunCmd>, fuel: nat, t: Trace)
    requires rs != [] && t == RunTrace(p, [], rs[0], fuel)
    ensures t.outcome != Halted ==> RunsFrom(p, acc, rs, fuel) == Session(acc + t.out, t.outcome)
    ensures t.outcome == Halted ==> RunsFrom(p, acc, rs, fuel) == RunsFrom(p, acc + t.out, rs[1..], fuel)
  {
    RunTraceAcc(p, acc, rs[0], fuel);
  }

  /** The runs are executed in source order: runs that halt leave their
      writes, one after the other, and the session goes on with the next. */
  lemma {:induction false} RunsSkip(p: Program, acc: seq<Piece>, rs: seq<RunCmd>, fuel: nat, k: nat)
    requires k <= |rs| && forall j :: 0 <= j < k ==> RunTrace(p, [], rs[j], fuel).outcome == Halted
    ensures RunsFrom(p, acc, rs, fuel) == RunsFrom(p, acc + Outs(p, rs[..k], fuel), rs[k..], fuel)
    decreases k
  {
    if k == 0 {
      assert rs[..0] == [] && rs[0..] == rs;
      assert acc + Outs(p, rs[..0], fuel) == acc;
    } else {
      var t := RunTrace(p, [], rs[0], fuel);
      RunsFromStep(p, acc, rs, fuel, t);
      var rest := rs[1..];
      forall j | 0 <= j < k - 1
        ensures RunTrace(p, [], rest[j], fuel).outcome == Halted
      {
        assert rest[j] == rs[j + 1];
      }
      RunsSkip(p, acc + t.out, rest, fuel, k - 1);
      assert rest[..k - 1] == rs[..k][1..] && rest[k - 1..] == rs[k..];
      assert rs[..k][0] == rs[0];
      assert Outs(p, rs[..k], fuel) == t.out + Outs(p, rest[..k - 1], fuel);
      assert acc + Outs(p, rs[..k], fuel) == acc + t.out + Outs(p, rest[..k - 1], fuel);
    }
  }

  /** When every run halts, the session is the writes of each run in
      turn and a final flush. */
  lemma RunsAllHalt(p: Program, acc: seq<Piece>, rs: seq<RunCmd>, fuel: nat)
    requires forall j :: 0 <= j < |rs| ==> RunTrace(p, [], rs[j], fuel).outcome == Halted
    ensures RunsFrom(p, acc, rs, fuel) == Session(acc + Outs(p, rs, fuel) + [Flush], Halted)
  {
    assert rs[..|rs|] == rs;
    RunsSkip(p, acc, rs, fuel, |rs|);
    assert rs[|rs|..] == [];
  }

  /** The first run that does not halt ends the session with its outcome,
      after the writes of the runs before it and its own. */
  lemma RunsStop(p: Program, acc: seq<Piece>, rs: seq<RunCmd>, fuel: nat, k: nat, u: Trace)
    requires k < |rs| && u == RunTrace(p, [], rs[k], fuel) && u.outcome != Halted
    requires forall j :: 0 <= j < k ==> RunTrace(p, [], rs[j], fuel).outcome == Halted
    ensures RunsFrom(p, acc, rs, fuel) == Session(acc + Outs(p, rs[..k], fuel) + u.out, u.outcome)
  {
    RunsSkip(p, acc, rs, fuel, k);
    assert rs[k..][0] == rs[k];
    RunsFromStep(p, acc + Outs(p, rs[..k], fuel), rs[k..], fuel, u);
  }

  /** `tape_print` joins the cells with single spaces. */
  lemma TapeTextJoin(tape: seq<bytes>, head: nat)
    requires |tape| > 0
    ensures TapeText(tape, head) == "[ " + Join(CellTexts(tape), " ") + " ]" + "\n  " + Spaces(2 * head) + "^\n"
  {
    var n := |tape|;
    EachThenJoin(CellTexts(tape[..n - 1]), Chars(tape[n - 1]), " ");
  }

  /** Texts of one character each, each followed by a space, put the
      `i`-th character at `2 * i`. */
  lemma {:induction false} EachThenColumns(xs: seq<string>)
    requires forall k :: 0 <= k < |xs| ==> |xs[k]| == 1
    ensures |EachThen(xs, " ")| == 2 * |xs|
    ensures forall i :: 0 <= i < |xs| ==> EachThen(xs, " ")[2 * i] == xs[i][0] && EachThen(xs, " ")[2 * i + 1] == ' '
    decreases |xs|
  {
    if xs != [] {
      var init := xs[..|xs| - 1];
      EachThenColumns(init);
      assert forall i :: 0 <= i < |init| ==> init[i] == xs[i];
    }
  }

  /** A character of the left operand of a concatenation. */
  lemma LeftAt(a: string, b: string, j: nat)
    requires j < |a|
    ensures (a + b)[j] == a[j]
  {
  }

  /** A column of a string is kept by three appends. */
  lemma KeptBy3(a: string, b: string, c: string, d: string, j: nat)
    requires j < |a|
    ensures (a + b + c + d)[j] == a[j]
  {
    LeftAt(a, b, j);
    LeftAt(a + b, c, j);
    LeftAt(a + b + c, d, j);
  }

  /** The first line of `tape_print` without its line feed. */
  function FirstLine(tape: seq<bytes>): string
    requires |tape| > 0
  {
    "[ " + EachThen(CellTexts(tape[..|tape| - 1]), " ") + Chars(tape[|tape| - 1]) + " ]"
  }

  /** With one-byte cells, cell `i` is at column `2 + 2 * i` of the first
      line, followed by a space, between `[ ` at columns 0 and 1 and `]` at
      column `2 + 2 * |tape|`. */
  lemma FirstLineColumns(tape: seq<bytes>)
    requires |tape| > 0 && forall k :: 0 <= k < |tape| ==> |tape[k]| == 1
    ensures |FirstLine(tape)| == 2 * |tape| + 3
    ensures FirstLine(tape)[0] == '[' && FirstLine(tape)[1] == ' ' && FirstLine(tape)[2 * |tape| + 2] == ']'
    ensures forall i :: 0 <= i < |tape| ==> FirstLine(tape)[2 + 2 * i] == Char(tape[i][0]) && FirstLine(tape)[3 + 2 * i] == ' '
  {
    var n := |tape|;
    var xs := CellTexts(tape[..n - 1]);
    forall k | 0 <= k < |xs|
      ensures |xs[k]| == 1
    {
      assert tape[..n - 1][k] == tape[k];
    }
    EachThenColumns(xs);
    var e := EachThen(xs, " ");
    var p1 := "[ " + e;
    var p2 := p1 + Chars(tape[n - 1]);
    assert FirstLine(tape) == p2 + " ]";
    forall i | 0 <= i < n
      ensures FirstLine(tape)[2 + 2 * i] == Char(tape[i][0]) && FirstLine(tape)[3 + 2 * i] == ' '
    {
      if i < n - 1 {
        assert tape[..n - 1][i] == tape[i];
        assert p1[2 + 2 * i] == e[2 * i] == xs[i][0] == Char(tape[i][0]);
        assert p1[3 + 2 * i] == e[2 * i + 1] == ' ';
        LeftAt(p1, Chars(tape[n - 1]), 2 + 2 * i);
        LeftAt(p1, Chars(tape[n - 1]), 3 + 2 * i);
      } else {
        assert p2[2 * n] == Chars(tape[n - 1])[0] == Char(tape[i][0]);
      }
      LeftAt(p2, " ]", 2 + 2 * i);
    }
    LeftAt(p1, Chars(tape[n - 1]), 0);
    LeftAt(p1, Chars(tape[n - 1]), 1);
  }

  /** With one-byte cells the caret stands under the head: the first line
      is laid out as `FirstLineColumns` says, followed by a line feed, and
      the caret is at column `2 + 2 * head` of the second line. */
  lemma TapeColumns(tape: seq<bytes>, head: nat)
    requires |tape| > 0 && forall k :: 0 <= k < |tape| ==> |tape[k]| == 1
    ensures |TapeText(tape, head)| == 2 * |tape| + 8 + 2 * head
    ensures forall j :: 0 <= j < 2 * |tape| + 3 ==> TapeText(tape, head)[j] == FirstLine(tape)[j]
    ensures TapeText(tape, head)[2 * |tape| + 3] == '\n'
    ensures TapeText(tape, head)[(2 * |tape| + 4) + 2 + 2 * head] == '^'
  {
    var n := |tape|;
    FirstLineColumns(tape);
    var l := FirstLine(tape);
    assert TapeText(tape, head) == l + "\n  " + Spaces(2 * head) + "^\n";
    forall j | 0 <= j < 2 * n + 3
      ensures TapeText(tape, head)[j] == l[j]
    {
      KeptBy3(l, "\n  ", Spaces(2 * head), "^\n", j);
    }
    var p4 := l + "\n  ";
    assert p4[2 * n + 3] == '\n';
    LeftAt(p4, Spaces(2 * head), 2 * n + 3);
    LeftAt(p4 + Spaces(2 * head), "^\n", 2 * n + 3);
  }
}
