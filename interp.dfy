/** The interpreter: the runs of a parsed program executed one after the
    other on their own tapes, with the first-match transition lookup, the
    step (write, change state, move), the halt test on the new state, the
    growth of the tape to the right with a filler fixed when the run
    starts, and the trace written to the output sink.  A run need not
    terminate, so every run is given a number of steps (`fuel`). */
module Interp {
  import opened Text
  import opened Results
  import opened Parser

  /** The cells, the current state and the head. */
  datatype Machine = Machine(tape: seq<bytes>, state: bytes, head: nat)

  /** The instruction is the one for this state and this symbol read. */
  predicate Matches(i: Instr, state: bytes, read: bytes)
  {
    i.state == state && i.read == read
  }

  /** The closure `jmp_instr`: the position of the first instruction, in
      program order, for the state and the symbol read, if there is one. */
  function Lookup(prog: seq<Instr>, state: bytes, read: bytes): (r: Option<nat>)
    ensures r.Some? ==> r.value < |prog| && Matches(prog[r.value], state, read)
    ensures r.Some? ==> forall k :: 0 <= k < r.value ==> !Matches(prog[k], state, read)
    ensures r.None? <==> forall k :: 0 <= k < |prog| ==> !Matches(prog[k], state, read)
  {
    if prog == [] then None
    else if Matches(prog[0], state, read) then Some(0)
    else
      match Lookup(prog[1..], state, read)
      case None => None
      case Some(k) => Some(k + 1)
  }

  /** What `jmp_instr` prints on the error stream before it ends the
      process with status 0. */
  function UndefinedText(state: bytes, read: bytes): string
  {
    "State '" + Chars(state) + "' and read '" + Chars(read) + "' combination is not defined"
  }

  /** `tape_print`: the cells between `[ ` and ` ]`, each but the last
      followed by a space, then on the next line two spaces, two more per
      head position, and a caret. */
  function TapeText(tape: seq<bytes>, head: nat): string
    requires |tape| > 0
  {
    "[ " + EachThen(CellTexts(tape[..|tape| - 1]), " ") + Chars(tape[|tape| - 1]) + " ]" + "\n  " + Spaces(2 * head) + "^\n"
  }

  /** `tape_print`, writing piece by piece as the source does. */
  method TapePrint(tape: seq<bytes>, head: nat) returns (out: string)
    requires |tape| > 0
    ensures out == TapeText(tape, head)
  {
    var n := |tape| - 1;
    var cells := CellsPrint(tape[..n]);
    var pad := PadPrint(head);
    out := "[ " + cells + Chars(tape[n]) + " ]" + "\n  " + pad + "^\n";
  }

  /** The loop over all cells but the last, each followed by a space. */
  method CellsPrint(cells: seq<bytes>) returns (out: string)
    ensures out == EachThen(CellTexts(cells), " ")
  {
    out := [];
    var k := 0;
    while k < |cells|
      invariant 0 <= k <= |cells|
      invariant out == EachThen(CellTexts(cells[..k]), " ")
    {
      assert cells[..k + 1][..k] == cells[..k];
      out := out + Chars(cells[k]) + " ";
      k := k + 1;
    }
    assert cells[..k] == cells;
  }

  /** The loop writing two spaces per head position. */
  method PadPrint(head: nat) returns (out: string)
    ensures out == Spaces(2 * head)
  {
    out := [];
    var h := 0;
    while h < head
      invariant 0 <= h <= head
      invariant out == Spaces(2 * h)
    {
      out := out + "  ";
      h := h + 1;
    }
  }

  /** One pass of the loop body after the instruction and the tape were
      printed: the head cell is overwritten and the state changed; then the
      head moves.  A left move from cell 0 is a `usize` underflow, which
      panics in a debug build.  Entering a halting state stops the run
      before the tape can grow; otherwise a head that has run off the right
      end gets one new cell holding the filler. */
  datatype StepResult = Continue(m: Machine) | Stop(m: Machine) | HeadUnderflow(m: Machine)

  function Step(m: Machine, ins: Instr, filler: bytes, halt: seq<bytes>): StepResult
    requires m.head < |m.tape|
  {
    var tape := m.tape[m.head := ins.write];
    if ins.dir == Left && m.head == 0 then HeadUnderflow(Machine(tape, ins.next, 0))
    else
      var head := if ins.dir == Left then m.head - 1 else m.head + 1;
      if ins.next in halt then Stop(Machine(tape, ins.next, head))
      else Continue(Machine(if |tape| <= head then tape + [filler] else tape, ins.next, head))
  }

  /** How a run ended: in a halting state, at a (state, symbol) pair no
      instruction is for, at a left move from cell 0, with an empty tape,
      or with its steps used up. */
  datatype Outcome = Halted | Undefined(state: bytes, read: bytes) | Underflow | EmptyTape | OutOfFuel

  /** One write to the sink: `writeln!` of a run, of what `Display` of an
      empty run writes before it panics, of an instruction, of the halt
      line or of nothing, one `tape_print`, or an explicit flush. */
  datatype Piece = RunLine(run: RunCmd) | PartialRun | InstrLine(ins: Instr) | TapeLines(tape: seq<bytes>, head: nat)
                 | HaltLine(state: bytes) | BlankLine | Flush

  /** The text of one write. */
  function PieceText(w: Piece): string
  {
    match w
    case RunLine(run) => (if |run.tape| == 0 then EmptyRunText else RunText(run)) + "\n"
    case PartialRun => EmptyRunText
    case InstrLine(ins) => InstrText(ins) + "\n"
    case TapeLines(tape, head) => if |tape| == 0 then "[ " else TapeText(tape, head)
    case HaltLine(state) => " -- HALT -- with " + Chars(state) + "\n"
    case BlankLine => "\n"
    case Flush => []
  }

  /** The text of the writes, one after the other. */
  function Render(ws: seq<Piece>): string
  {
    if ws == [] then [] else PieceText(ws[0]) + Render(ws[1..])
  }

  /** What was written to the sink, write by write, how it ended and the
      machine at its end. */
  datatype Trace = Trace(out: seq<Piece>, outcome: Outcome, last: Machine)

  /** The loop of `execute_program`, after the writes `acc`, from a machine
      whose next instruction `ins` has been looked up, for at most `fuel`
      more steps: each step writes the instruction and the tape as it is
      before the step; a halt writes the final tape, the halt line and an
      empty line; every step that does not halt flushes the sink before the
      next lookup. */
  function Steps(prog: seq<Instr>, halt: seq<bytes>, filler: bytes, acc: seq<Piece>, m: Machine, ins: Instr, fuel: nat): Trace
    requires m.head < |m.tape|
    decreases fuel
  {
    if fuel == 0 then Trace(acc, OutOfFuel, m)
    else
      var shown := acc + [InstrLine(ins), TapeLines(m.tape, m.head)];
      match Step(m, ins, filler, halt)
      case HeadUnderflow(m') => Trace(shown, Underflow, m')
      case Stop(m') => Trace(shown + [TapeLines(m'.tape, m'.head), HaltLine(m'.state), BlankLine], Halted, m')
      case Continue(m') =>
        match Lookup(prog, m'.state, m'.tape[m'.head])
        case None => Trace(shown + [Flush], Undefined(m'.state, m'.tape[m'.head]), m')
        case Some(k) => Steps(prog, halt, filler, shown + [Flush], m', prog[k], fuel - 1)
  }

  /** One run, after the writes `acc`: the header line, then the first lookup on cell 0 in the
      start state, then the loop with the last initial cell as filler.  An
      empty tape makes `Display` of the run panic after `#run [ `. */
  function RunTrace(p: Program, acc: seq<Piece>, run: RunCmd, fuel: nat): Trace
  {
    var m := Machine(run.tape, run.state, 0);
    if |run.tape| == 0 then Trace(acc + [PartialRun], EmptyTape, m)
    else
      var header := acc + [RunLine(run)];
      match Lookup(p.program, run.state, run.tape[0])
      case None => Trace(header, Undefined(run.state, run.tape[0]), m)
      case Some(k) => Steps(p.program, p.halt, run.tape[|run.tape| - 1], header, m, p.program[k], fuel)
  }

  /** What the runs from `rs` on write after the writes `acc`, each run with
      at most `fuel` steps: the first run that does not halt ends the
      process; when all halt, the sink is flushed at the end. */
  datatype Session = Session(out: seq<Piece>, outcome: Outcome)

  function RunsFrom(p: Program, acc: seq<Piece>, rs: seq<RunCmd>, fuel: nat): Session
    decreases |rs|
  {
    if rs == [] then Session(acc + [Flush], Halted)
    else
      var t := RunTrace(p, acc, rs[0], fuel);
      if t.outcome != Halted then Session(t.out, t.outcome)
      else RunsFrom(p, t.out, rs[1..], fuel)
  }

  /** `execute_program` with at most `fuel` steps per run. */
  function ProgramSession(p: Program, fuel: nat): Session
  {
    RunsFrom(p, [], p.runs, fuel)
  }

  /** The number of writes up to and including the last flush, 0 if none. */
  function Flushed(ws: seq<Piece>): (n: nat)
    ensures n <= |ws|
    ensures n > 0 ==> ws[n - 1] == Flush
    ensures forall k :: n <= k < |ws| ==> ws[k] != Flush
  {
    if ws == [] then 0
    else if ws[|ws| - 1] == Flush then |ws|
    else Flushed(ws[..|ws| - 1])
  }

  /** What reaches standard output: everything, except when an undefined
      pair ends the process with `exit`, which drops what the sink holds
      since its last flush (at least the flushed prefix is written; the
      sink may have written more on its own when its buffer filled). */
  function Visible(s: Session): string
  {
    if s.outcome.Undefined? then Render(s.out[..Flushed(s.out)]) else Render(s.out)
  }

  /** What reaches the error stream from the interpreter itself. */
  function ErrorText(o: Outcome): string
  {
    if o.Undefined? then UndefinedText(o.state, o.read) + "\n" else []
  }

  /** The loop body from the write on: `tape[head] = instr.write`, the new
      state, the move, the halt test and the growth. */
  method StepMachine(m: Machine, ins: Instr, filler: bytes, halt: seq<bytes>) returns (r: StepResult)
    requires m.head < |m.tape|
    ensures r == Step(m, ins, filler, halt)
  {
    var tape := m.tape;
    tape := tape[m.head := ins.write];
    var state := ins.next;
    var head := m.head;
    if ins.dir == Left {
      if head == 0 {
        return HeadUnderflow(Machine(tape, state, head));
      }
      head := head - 1;
    } else {
      head := head + 1;
    }
    if state in halt {
      return Stop(Machine(tape, state, head));
    }
    if |tape| <= head {
      tape := tape + [filler];
    }
    r := Continue(Machine(tape, state, head));
  }

  /** One run of `execute_program`: the body of its `for` loop, after the
      writes `acc`. */
  method ExecuteRun(p: Program, acc: seq<Piece>, run: RunCmd, fuel: nat) returns (t: Trace)
    ensures t == RunTrace(p, acc, run, fuel)
  {
    var m := Machine(run.tape, run.state, 0);
    if |run.tape| == 0 {
      return Trace(acc + [PartialRun], EmptyTape, m);
    }
    var out := acc + [RunLine(run)];
    var found := Lookup(p.program, m.state, m.tape[0]);
    if found.None? {
      return Trace(out, Undefined(m.state, m.tape[0]), m);
    }
    var filler := m.tape[|m.tape| - 1];
    t := RunSteps(p.program, p.halt, filler, out, m, p.program[found.value], fuel);
  }

  /** The `loop` of `execute_program`, after the writes `acc`, for at most
      `fuel` steps.  The source leaves its endless loop with `break` on a
      halt and then prints the final tape; here that text is written and
      the run returned at the same point. */
  method RunSteps(prog: seq<Instr>, halt: seq<bytes>, filler: bytes, acc: seq<Piece>, m0: Machine, ins: Instr, fuel: nat)
    returns (t: Trace)
    requires m0.head < |m0.tape|
    ensures t == Steps(prog, halt, filler, acc, m0, ins, fuel)
  {
    var m, instr := m0, ins;
    var out := acc;
    var left: nat := fuel;
    while left > 0
      invariant m.head < |m.tape|
      invariant Steps(prog, halt, filler, acc, m0, ins, fuel) == Steps(prog, halt, filler, out, m, instr, left)
    {
      out := out + [InstrLine(instr), TapeLines(m.tape, m.head)];
      var r := StepMachine(m, instr, filler, halt);
      if r.HeadUnderflow? {
        return Trace(out, Underflow, r.m);
      }
      m := r.m;
      if r.Stop? {
        out := out + [TapeLines(m.tape, m.head), HaltLine(m.state), BlankLine];
        return Trace(out, Halted, m);
      }
      out := out + [Flush];
      var found := Lookup(prog, m.state, m.tape[m.head]);
      if found.None? {
        return Trace(out, Undefined(m.state, m.tape[m.head]), m);
      }
      instr := prog[found.value];
      left := left - 1;
    }
    t := Trace(out, OutOfFuel, m);
  }

  /** `execute_program`: the runs in source order, each on its own tape,
      until one does not halt; when all halt, the final flush. */
  method ExecuteProgram(p: Program, fuel: nat) returns (s: Session)
    ensures s == ProgramSession(p, fuel)
  {
    var out: seq<Piece> := [];
    var i := 0;
    while i < |p.runs|
      invariant 0 <= i <= |p.runs|
      invariant ProgramSession(p, fuel) == RunsFrom(p, out, p.runs[i..], fuel)
    {
      var t := ExecuteRun(p, out, p.runs[i], fuel);
      assert p.runs[i..][1..] == p.runs[i + 1..];
      if t.outcome != Halted {
        return Session(t.out, t.outcome);
      }
      out := t.out;
      i := i + 1;
    }
    s := Session(out + [Flush], Halted);
  }
}
