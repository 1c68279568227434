/** The recursive-descent parser: the program entities, their `Display`
    renderings, and the grammar.

    The grammar is given over the stream of results `next_token` hands out
    one after the other (`Tokens`), as functions from a stream to a value
    and the stream left over.  The class `Parser` reads the same results
    from a live `Lexer`, and each of its methods is proved to compute what
    the corresponding grammar function computes and to leave the lexer
    where that function leaves the stream. */
module Parser {
  import opened Text
  import opened Lexer

  datatype Dir = Left | Right

  /** `Display` of `Dir`. */
  function DirText(d: Dir): (r: string)
    ensures r == KindStr(if d == Left then LeftArrow else RightArrow)
  {
    match d
    case Left => "<-"
    case Right => "->"
  }

  /** One transition: in `state`, reading `read`, write `write`, move `dir`
      and go to `next` (the source's `next_state`). */
  datatype Instr = Instr(state: bytes, read: bytes, write: bytes, dir: Dir, next: bytes)

  /** `Display` of `Instr`: the five fields separated by single spaces. */
  function InstrText(i: Instr): string
  {
    Chars(i.state) + " " + Chars(i.read) + " " + Chars(i.write) + " " + DirText(i.dir) + " " + Chars(i.next)
  }

  /** A `#run [ cells ] state` command. */
  datatype RunCmd = RunCmd(tape: seq<bytes>, state: bytes)

  /** The cells written out one by one. */
  function CellTexts(cells: seq<bytes>): (r: seq<string>)
    ensures |r| == |cells| && forall k :: 0 <= k < |cells| ==> r[k] == Chars(cells[k])
  {
    if cells == [] then [] else CellTexts(cells[..|cells| - 1]) + [Chars(cells[|cells| - 1])]
  }

  /** `Display` of `RunCmd`.  With an empty tape the source writes `#run [ `
      and then panics on `expect`, so the rendering needs a cell. */
  function RunText(r: RunCmd): string
    requires |r.tape| > 0
  {
    "#run [ " + EachThen(CellTexts(r.tape[..|r.tape| - 1]), " ") + Chars(r.tape[|r.tape| - 1]) + " ] " + Chars(r.state)
  }

  /** What `RunCmd`'s `Display` has written when its `expect` panics. */
  const EmptyRunText: string := "#run [ "

  /** A `#halt states` command. */
  datatype HaltCmd = HaltCmd(states: seq<bytes>)

  /** A parsed source: the runs, the halting states and the instructions. */
  datatype Program = Program(runs: seq<RunCmd>, halt: seq<bytes>, program: seq<Instr>)

  /** The accepted kinds and the result actually met. */
  datatype ParseErr = ParseErr(expected: seq<TokenKind>, got: TokenResult)

  /** The kind names written out one by one. */
  function KindNames(ks: seq<TokenKind>): (r: seq<string>)
    ensures |r| == |ks| && forall k :: 0 <= k < |ks| ==> r[k] == KindStr(ks[k])
  {
    if ks == [] then [] else KindNames(ks[..|ks| - 1]) + [KindStr(ks[|ks| - 1])]
  }

  /** How the result that did not fit is described. */
  function GotText(got: TokenResult): string
  {
    match got
    case Eof(_) => "EOF"
    case Valid(tok) => KindStr(tok.kind) + " " + DebugStr(Chars(tok.text))
    case Unknown(text, _) => "unknown token `" + Chars(text) + "`"
    case UnclosedStr(_) => "unclosed string"
  }

  /** `Display` of `ParseErr`: `loc: Expected K1 or ... or Kn but got X`.
      The source unwraps `split_last`, so the kinds are not empty (no caller
      passes an empty set). */
  function ErrText(e: ParseErr): string
    requires |e.expected| > 0
  {
    var ks := e.expected;
    LocText(ResultLoc(e.got)) + ": Expected " + EachThen(KindNames(ks[..|ks| - 1]), " or ") + KindStr(ks[|ks| - 1])
      + " but got " + GotText(e.got)
  }

  /** The outcome of a parse: a value, a parse error, or the top-level
      `unreachable!` panic on the token that reached it. */
  datatype Parse<+T> = Done(value: T) | Failed(err: ParseErr) | Unreachable(tok: Token)
  {
    predicate IsFailure()
    {
      !Done?
    }

    function PropagateFailure<U>(): Parse<U>
      requires !Done?
    {
      if Failed? then Failed(err) else Unreachable(tok)
    }

    function Extract(): T
      requires Done?
    {
      value
    }
  }

  type Stream = seq<TokenResult>

  /** A stream as the lexer produces it: results up to and including the
      first one that is not a token. */
  predicate Ended(ts: Stream)
  {
    |ts| > 0 && !ts[|ts| - 1].Valid?
  }

  /** The results successive `next_token` calls hand out from state `p`,
      up to the first `Eof`, `Unknown` or `UnclosedStr`: every parse stops
      at that one. */
  function Tokens(file: string, c: bytes, p: Pos): (ts: Stream)
    requires WellTerminated(c) && Inside(c, p)
    ensures Ended(ts)
    decreases |c| - p.cur
  {
    var (r, q) := Scan(file, c, p);
    if r.Valid? then [r] + Tokens(file, c, q) else [r]
  }

  /** The lexer states the results of `Tokens` are scanned from. */
  function States(file: string, c: bytes, p: Pos): (ps: seq<Pos>)
    requires WellTerminated(c) && Inside(c, p)
    ensures |ps| == |Tokens(file, c, p)| && ps[0] == p
    decreases |c| - p.cur
  {
    var (r, q) := Scan(file, c, p);
    if r.Valid? then [p] + States(file, c, q) else [p]
  }

  /** `ts` is what `next_token` hands out from the states `ps`, one
      result per state, each state the one the previous scan left. */
  predicate Linked(file: string, c: bytes, ts: Stream, ps: seq<Pos>)
  {
    WellTerminated(c) && Ended(ts) && |ps| == |ts|
    && (forall k :: 0 <= k < |ps| ==> Inside(c, ps[k]))
    && (forall k {:trigger Scan(file, c, ps[k])} :: 0 <= k < |ts| ==>
          Scan(file, c, ps[k]).0 == ts[k] && (k + 1 < |ts| ==> Scan(file, c, ps[k]).1 == ps[k + 1]))
  }

  lemma {:induction false} TokensLinked(file: string, c: bytes, p: Pos)
    requires WellTerminated(c) && Inside(c, p)
    ensures Linked(file, c, Tokens(file, c, p), States(file, c, p))
    decreases |c| - p.cur
  {
    var (r, q) := Scan(file, c, p);
    var ts, ps := Tokens(file, c, p), States(file, c, p);
    if r.Valid? {
      TokensLinked(file, c, q);
      var ts', ps' := Tokens(file, c, q), States(file, c, q);
      assert ts == [r] + ts' && ps == [p] + ps';
      forall k | 0 <= k < |ps| ensures Inside(c, ps[k]) {
        if k > 0 {
          assert ps[k] == ps'[k - 1];
        }
      }
      forall k | 0 <= k < |ts|
        ensures Scan(file, c, ps[k]).0 == ts[k] && (k + 1 < |ts| ==> Scan(file, c, ps[k]).1 == ps[k + 1])
      {
        if k > 0 {
          assert ps[k] == ps'[k - 1] && ts[k] == ts'[k - 1];
          assert Scan(file, c, ps'[k - 1]).0 == ts'[k - 1];
        }
      }
    }
  }

  /** The value of a parse without the position it stops at. */
  function Value<T>(r: Parse<(T, nat)>): Parse<T>
  {
    match r
    case Done(v) => Done(v.0)
    case Failed(e) => Failed(e)
    case Unreachable(t) => Unreachable(t)
  }

  /** A position of a stream the parse may be at. */
  predicate At(ts: Stream, i: nat)
  {
    Ended(ts) && i < |ts|
  }

  /** `expect_token` at position `i`: the result there must be a token of
      one of `kinds`. */
  function Expect(ts: Stream, i: nat, kinds: seq<TokenKind>): (r: Parse<(Token, nat)>)
    requires At(ts, i)
    ensures r.Done? <==> ts[i].Valid? && ts[i].tok.kind in kinds
    ensures r.Done? ==> r.value == (ts[i].tok, i + 1) && At(ts, i + 1)
    ensures !r.Done? ==> r == Failed(ParseErr(kinds, ts[i]))
  {
    if ts[i].Valid? && ts[i].tok.kind in kinds then Done((ts[i].tok, i + 1)) else Failed(ParseErr(kinds, ts[i]))
  }

  /** `parse_instr`: `Symbol Symbol Symbol (<- | ->) Symbol NewLine`.  The
      source's `unreachable!()` after the arrow cannot be reached, since
      the arrow token has one of the two kinds asked for. */
  function Instruction(ts: Stream, i: nat): (r: Parse<(Instr, nat)>)
    requires At(ts, i)
    ensures r.Done? ==> r.value.1 == i + 6 && At(ts, r.value.1)
    ensures !r.Unreachable?
  {
    var state :- Expect(ts, i, [Symbol]);
    var read :- Expect(ts, state.1, [Symbol]);
    var write :- Expect(ts, read.1, [Symbol]);
    var dir :- Expect(ts, write.1, [LeftArrow, RightArrow]);
    var next :- Expect(ts, dir.1, [Symbol]);
    var nl :- Expect(ts, next.1, [NewLine]);
    Done((Instr(state.0.text, read.0.text, write.0.text, if dir.0.kind == LeftArrow then Left else Right, next.0.text), nl.1))
  }

  /** The loop of `parse_cmd_run`: `Symbol`s up to the closing `]`. */
  function TapeCells(ts: Stream, i: nat): (r: Parse<(seq<bytes>, nat)>)
    requires At(ts, i)
    ensures r.Done? ==> i < r.value.1 && At(ts, r.value.1)
    ensures !r.Unreachable?
    decreases |ts| - i
  {
    var t :- Expect(ts, i, [Symbol, Ket]);
    if t.0.kind == Symbol then
      var more :- TapeCells(ts, t.1);
      Done(([t.0.text] + more.0, more.1))
    else
      Done(([], t.1))
  }

  /** `parse_cmd_run`: `Cmd [ cells ] Symbol NewLine`. */
  function RunCommand(ts: Stream, i: nat): (r: Parse<(RunCmd, nat)>)
    requires At(ts, i)
    ensures r.Done? ==> i < r.value.1 && At(ts, r.value.1)
    ensures !r.Unreachable?
  {
    var cmd :- Expect(ts, i, [Cmd]);
    var bra :- Expect(ts, cmd.1, [Bra]);
    var cells :- TapeCells(ts, bra.1);
    var state :- Expect(ts, cells.1, [Symbol]);
    var nl :- Expect(ts, state.1, [NewLine]);
    Done((RunCmd(cells.0, state.0.text), nl.1))
  }

  /** The loop of `parse_cmd_halt`: `Symbol`s up to the line's end. */
  function HaltStates(ts: Stream, i: nat): (r: Parse<(seq<bytes>, nat)>)
    requires At(ts, i)
    ensures r.Done? ==> i < r.value.1 && At(ts, r.value.1)
    ensures !r.Unreachable?
    decreases |ts| - i
  {
    var t :- Expect(ts, i, [NewLine, Symbol]);
    if t.0.kind == Symbol then
      var more :- HaltStates(ts, t.1);
      Done(([t.0.text] + more.0, more.1))
    else
      Done(([], t.1))
  }

  /** `parse_cmd_halt`: `Cmd states NewLine`. */
  function HaltCommand(ts: Stream, i: nat): (r: Parse<(HaltCmd, nat)>)
    requires At(ts, i)
    ensures r.Done? ==> i < r.value.1 && At(ts, r.value.1)
    ensures !r.Unreachable?
  {
    var cmd :- Expect(ts, i, [Cmd]);
    var states :- HaltStates(ts, cmd.1);
    Done((HaltCmd(states.0), states.1))
  }

  /** `#run` and `#halt`: the two command words. */
  const RunWord: bytes := Bytes("#run")
  const HaltWord: bytes := Bytes("#halt")

  /** One top-level statement. */
  datatype Stmt = RunStmt(run: RunCmd) | HaltStmt(halt: HaltCmd) | InstrStmt(instr: Instr) | Blank

  /** One turn of the top-level loop after a token was peeked: `#run`,
      `#halt`, an instruction, or a blank line.  Anything else reaches
      `unreachable!`. */
  function Statement(ts: Stream, i: nat): (r: Parse<(Stmt, nat)>)
    requires At(ts, i) && ts[i].Valid?
    ensures r.Done? ==> i < r.value.1 && At(ts, r.value.1)
  {
    var t := ts[i].tok;
    if t.kind == Cmd && t.text == RunWord then
      var run :- RunCommand(ts, i);
      Done((RunStmt(run.0), run.1))
    else if t.kind == Cmd && t.text == HaltWord then
      var halt :- HaltCommand(ts, i);
      Done((HaltStmt(halt.0), halt.1))
    else if t.kind == Symbol then
      var instr :- Instruction(ts, i);
      Done((InstrStmt(instr.0), instr.1))
    else if t.kind == NewLine then
      Done((Blank, i + 1))
    else
      Unreachable(t)
  }

  /** The statements of a stream from `i` on, up to `Eof`.  Any other
      non-token result at the top level is an error expecting `Symbol` or
      `Cmd`; the first error ends the parse. */
  function Statements(ts: Stream, i: nat): Parse<seq<Stmt>>
    requires At(ts, i)
    decreases |ts| - i
  {
    if ts[i].Eof? then Done([])
    else if !ts[i].Valid? then Failed(ParseErr([Symbol, Cmd], ts[i]))
    else
      var s :- Statement(ts, i);
      var more :- Statements(ts, s.1);
      Done([s.0] + more)
  }

  /** What one statement does to the three collections: a run or an
      instruction is appended, a `#halt` replaces the halting states. */
  function Apply(p: Program, s: Stmt): Program
  {
    match s
    case RunStmt(r) => p.(runs := p.runs + [r])
    case HaltStmt(h) => p.(halt := h.states)
    case InstrStmt(i) => p.(program := p.program + [i])
    case Blank => p
  }

  /** The collections after the statements `ss`, in order, starting from `acc`. */
  function Collect(acc: Program, ss: seq<Stmt>): Program
    decreases |ss|
  {
    if ss == [] then acc else Collect(Apply(acc, ss[0]), ss[1..])
  }

  /** No `#halt`, or only empty ones last: the halting states are `HALT`. */
  const DefaultHalt: bytes := Bytes("HALT")

  function Finish(p: Program): (r: Program)
    ensures |r.halt| > 0 && r.runs == p.runs && r.program == p.program
    ensures p.halt != [] ==> r.halt == p.halt
    ensures p.halt == [] ==> r.halt == [DefaultHalt]
  {
    if p.halt == [] then p.(halt := [DefaultHalt]) else p
  }

  /** How the top-level loop ends once it holds `acc`: with the program
      the remaining statements complete, or with their error. */
  function Resume(acc: Program, r: Parse<seq<Stmt>>): Parse<Program>
  {
    match r
    case Done(ss) => Done(Finish(Collect(acc, ss)))
    case Failed(e) => Failed(e)
    case Unreachable(t) => Unreachable(t)
  }

  /** `parse_source` over a stream. */
  function ProgramOf(ts: Stream): Parse<Program>
    requires Ended(ts)
  {
    Resume(Program([], [], []), Statements(ts, 0))
  }

  /** `parse_source` over a buffer that ends in a line feed. */
  function SourceProgram(file: string, content: bytes): Parse<Program>
    requires WellTerminated(content)
  {
    ProgramOf(Tokens(file, content, Pos(0, 0, 0)))
  }

  /** The statements after one more statement `s` in front. */
  function Prefixed(s: Stmt, r: Parse<seq<Stmt>>): Parse<seq<Stmt>>
  {
    match r
    case Done(ss) => Done([s] + ss)
    case Failed(e) => Failed(e)
    case Unreachable(t) => Unreachable(t)
  }

  /** A cell or state loop after some symbols were already read. */
  function Gathered(done: seq<bytes>, r: Parse<(seq<bytes>, nat)>): Parse<(seq<bytes>, nat)>
  {
    match r
    case Done(v) => Done((done + v.0, v.1))
    case Failed(e) => Failed(e)
    case Unreachable(t) => Unreachable(t)
  }

  lemma GatheredNothing(r: Parse<(seq<bytes>, nat)>)
    ensures Gathered([], r) == r
  {
    if r.Done? {
      assert [] + r.value.0 == r.value.0;
    }
  }

  lemma GatheredMore(a: seq<bytes>, x: bytes, r: Parse<(seq<bytes>, nat)>)
    ensures Gathered(a, Gathered([x], r)) == Gathered(a + [x], r)
  {
    if r.Done? {
      assert a + ([x] + r.value.0) == (a + [x]) + r.value.0;
    }
  }

  lemma GatheredEnd(a: seq<bytes>, i: nat)
    ensures Gathered(a, Done(([], i))) == Done((a, i))
  {
    assert a + [] == a;
  }

  /** Reading one more statement is applying it to the collections. */
  lemma ResumeNext(acc: Program, s: Stmt, r: Parse<seq<Stmt>>)
    ensures Resume(acc, Prefixed(s, r)) == Resume(Apply(acc, s), r)
  {
    if r.Done? {
      assert ([s] + r.value)[1..] == r.value;
    }
  }

  /** One turn of the top-level loop: a statement, then the rest. */
  lemma StatementsNext(ts: Stream, i: nat)
    requires At(ts, i) && ts[i].Valid?
    ensures Statement(ts, i).Done? ==>
      Statements(ts, i) == Prefixed(Statement(ts, i).value.0, Statements(ts, Statement(ts, i).value.1))
    ensures !Statement(ts, i).Done? ==> Statements(ts, i) == Statement(ts, i).PropagateFailure()
  {
  }

  /** The parser: a lexer and, for the proofs, the stream of results it
      reads and how far into it the lexer is. */
  class Parser {
    const lexer: Lexer
    ghost const stream: Stream
    ghost const states: seq<Pos>
    ghost var pos: nat

    /** The lexer stands at the state the `pos`-th result of the stream
        is scanned from. */
    ghost predicate Valid()
      reads this, lexer
    {
      lexer.Valid() && Linked(lexer.file, lexer.content, stream, states)
      && pos < |stream| && lexer.State() == states[pos]
    }

    constructor (lexer: Lexer)
      requires lexer.Valid()
      ensures Valid() && this.lexer == lexer && pos == 0
      ensures stream == Tokens(lexer.file, lexer.content, lexer.State())
    {
      this.lexer := lexer;
      stream := Tokens(lexer.file, lexer.content, lexer.State());
      states := States(lexer.file, lexer.content, lexer.State());
      pos := 0;
      new;
      TokensLinked(lexer.file, lexer.content, lexer.State());
    }

    method PeekToken() returns (t: TokenResult)
      requires Valid()
      modifies lexer
      ensures Valid() && pos == old(pos) && t == stream[pos]
    {
      t := lexer.PeekToken();
    }

    /** Consumes the next result; past a token the stream moves on by one. */
    method SkipToken()
      requires Valid() && stream[pos].Valid?
      modifies this, lexer
      ensures Valid() && pos == old(pos) + 1
    {
      var _ := lexer.NextToken();
      pos := pos + 1;
    }

    method ExpectToken(kinds: seq<TokenKind>) returns (r: Parse<Token>)
      requires Valid()
      modifies this, lexer
      ensures r == Value(Expect(stream, old(pos), kinds))
      ensures r.Done? ==> Valid() && pos == old(pos) + 1
    {
      var t := lexer.NextToken();
      if t.Valid? && t.tok.kind in kinds {
        pos := pos + 1;
        r := Done(t.tok);
      } else {
        r := Failed(ParseErr(kinds, t));
      }
    }

    method ParseInstr() returns (r: Parse<Instr>)
      requires Valid()
      modifies this, lexer
      ensures r == Value(Instruction(stream, old(pos)))
      ensures r.Done? ==> Valid() && pos == Instruction(stream, old(pos)).value.1
    {
      var state :- ExpectToken([Symbol]);
      var read :- ExpectToken([Symbol]);
      var write :- ExpectToken([Symbol]);
      var arrow :- ExpectToken([LeftArrow, RightArrow]);
      var dir := if arrow.kind == LeftArrow then Left else Right;
      var next :- ExpectToken([Symbol]);
      var _ :- ExpectToken([NewLine]);
      r := Done(Instr(state.text, read.text, write.text, dir, next.text));
    }

    /** The cell loop of `parse_cmd_run`, up to and including `]`. */
    method ParseTapeCells() returns (r: Parse<seq<bytes>>)
      requires Valid()
      modifies this, lexer
      ensures r == Value(TapeCells(stream, old(pos)))
      ensures r.Done? ==> Valid() && pos == TapeCells(stream, old(pos)).value.1
    {
      var tape: seq<bytes> := [];
      GatheredNothing(TapeCells(stream, pos));
      while true
        invariant Valid() && TapeCells(stream, old(pos)) == Gathered(tape, TapeCells(stream, pos))
        decreases |stream| - pos
      {
        var token :- ExpectToken([Symbol, Ket]);
        if token.kind == Symbol {
          GatheredMore(tape, token.text, TapeCells(stream, pos));
          tape := tape + [token.text];
        } else {
          GatheredEnd(tape, pos);
          break;
        }
      }
      r := Done(tape);
    }

    method ParseCmdRun() returns (r: Parse<RunCmd>)
      requires Valid()
      modifies this, lexer
      ensures r == Value(RunCommand(stream, old(pos)))
      ensures r.Done? ==> Valid() && pos == RunCommand(stream, old(pos)).value.1
    {
      var _ :- ExpectToken([Cmd]);
      var _ :- ExpectToken([Bra]);
      var tape :- ParseTapeCells();
      var state :- ExpectToken([Symbol]);
      var _ :- ExpectToken([NewLine]);
      r := Done(RunCmd(tape, state.text));
    }

    method ParseCmdHalt() returns (r: Parse<HaltCmd>)
      requires Valid()
      modifies this, lexer
      ensures r == Value(HaltCommand(stream, old(pos)))
      ensures r.Done? ==> Valid() && pos == HaltCommand(stream, old(pos)).value.1
    {
      var _ :- ExpectToken([Cmd]);
      ghost var statesFrom := pos;
      var states: seq<bytes> := [];
      GatheredNothing(HaltStates(stream, pos));
      while true
        invariant Valid() && HaltStates(stream, statesFrom) == Gathered(states, HaltStates(stream, pos))
        decreases |stream| - pos
      {
        var token :- ExpectToken([NewLine, Symbol]);
        if token.kind == Symbol {
          GatheredMore(states, token.text, HaltStates(stream, pos));
          states := states + [token.text];
        } else {
          GatheredEnd(states, pos);
          break;
        }
      }
      r := Done(HaltCmd(states));
    }

    /** One turn of the top-level loop, on the token it peeked: a `#run`
        or `#halt` command, an instruction, or a blank line. */
    method ParseStatement(token: Token) returns (r: Parse<Stmt>)
      requires Valid() && stream[pos] == TokenResult.Valid(token)
      modifies this, lexer
      ensures r == Value(Statement(stream, old(pos)))
      ensures r.Done? ==> Valid() && pos == Statement(stream, old(pos)).value.1
    {
      if token.kind == Cmd && token.text == RunWord {
        var run :- ParseCmdRun();
        r := Done(RunStmt(run));
      } else if token.kind == Cmd && token.text == HaltWord {
        var halt :- ParseCmdHalt();
        r := Done(HaltStmt(halt));
      } else if token.kind == Symbol {
        var instr :- ParseInstr();
        r := Done(InstrStmt(instr));
      } else if token.kind == NewLine {
        SkipToken();
        r := Done(Blank);
      } else {
        r := Unreachable(token);
      }
    }
  }

  /** `parse_source`: the top-level loop peeks a result, dispatches on it,
      and collects instructions and runs in order and the last `#halt`. */
  method ParseSource(content: bytes, file: string) returns (r: Parse<Program>)
    requires WellTerminated(content)
    ensures r == SourceProgram(file, content)
  {
    var lexer := new Lexer(content, file);
    var parser := new Parser(lexer);
    var program: seq<Instr> := [];
    var runs: seq<RunCmd> := [];
    var haltSyms: seq<bytes> := [];
    while true
      invariant parser.Valid() && parser.lexer == lexer
      invariant ProgramOf(parser.stream) == Resume(Program(runs, haltSyms, program), Statements(parser.stream, parser.pos))
      decreases |parser.stream| - parser.pos
    {
      var next := parser.PeekToken();
      if next.Eof? {
        break;
      }
      if !next.Valid? {
        return Failed(ParseErr([Symbol, Cmd], next));
      }
      StatementsNext(parser.stream, parser.pos);
      ghost var acc := Program(runs, haltSyms, program);
      var stmt :- parser.ParseStatement(next.tok);
      ResumeNext(acc, stmt, Statements(parser.stream, parser.pos));
      match stmt
      case RunStmt(run) => runs := runs + [run];
      case HaltStmt(halt) => haltSyms := halt.states;
      case InstrStmt(instr) => program := program + [instr];
      case Blank =>
    }
    if haltSyms == [] {
      haltSyms := [DefaultHalt];
    }
    r := Done(Program(runs, haltSyms, program));
  }
}
