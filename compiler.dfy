/** The assembly back end: a table from string constants to the names of
    their `db` lines, filled insert-if-absent so that the first name given
    to a string wins, the fixed layout of the trace line in `print_buf`,
    and `compile_program`, which writes the data section from the program
    before it checks that the program is one it can compile.  The output is
    the sequence of lines printed; what the assembly does is not modelled. */
module Compiler {
  import opened Text
  import opened Parser

  /** `c.to_string()` for every byte of a string, in order: the decimal
      numbers of its bytes. */
  function DbValues(s: bytes): (r: seq<string>)
    ensures |r| == |s|
    ensures forall k :: 0 <= k < |s| ==> AllDigits(r[k]) && DecValue(r[k]) == s[k] as int
  {
    if s == [] then []
    else
      DecRoundTrip(s[|s| - 1] as int);
      DbValues(s[..|s| - 1]) + [Dec(s[|s| - 1] as int)]
  }

  /** The data line that defines the string `s` under the label `str_name`. */
  function DbLine(s: bytes, name: bytes): string
  {
    "    str_" + Chars(name) + ": db " + Join(DbValues(s), ",")
  }

  /** The memory a line of code names. */
  datatype Buf = TapeBuf | PrintBuf

  function BufName(b: Buf): string
  {
    match b
    case TapeBuf => "tape"
    case PrintBuf => "print_buf"
  }

  /** One `println!` of the compiler. */
  datatype Emit =
    | Format | DataSection | Db(s: bytes, name: bytes) | Bss
    | TextSection | PublicStart | StartLabel | InitHead
    | StaticBufNote | StoreByte(buf: Buf, i: nat, v: char)
    | PrintAddr(buf: Buf, len: nat) | PrintStr(len: nat, name: bytes) | CallTapePrint | Exit
    | TapePrintEntry | CellCopy(i: nat) | KetNewLine(len: nat) | CaretFill(len: nat)

  /** The lines one `println!` prints. */
  function EmitLines(e: Emit): seq<string>
  {
    match e
    case Format => ["format ELF64"]
    case DataSection => ["section '.data' writeable"]
    case Db(s, name) => [DbLine(s, name)]
    case Bss =>
      ["; bss", "section '.bss' writable", "    head:      rb 1", "    state:     rb 1", "    tape:      rb 256",
       "    print_buf: rb 256", "        "]
    case TextSection => ["section '.text' executable"]
    case PublicStart => ["public _start"]
    case StartLabel => ["_start:"]
    case InitHead => ["    mov byte [head], 3"]
    case StaticBufNote => ["    ; write_to_static_buf"]
    case StoreByte(buf, i, v) => ["    mov byte [" + BufName(buf) + " + " + Dec(i) + "], '" + [v] + "'"]
    case PrintAddr(buf, len) =>
      ["    ; print_addr", "    mov rdx, " + Dec(len) + "  ; length to rdx", "    mov rsi, " + BufName(buf) + " \t; address to rsi",
       "    mov\trdi, 1\t\t; stdout", "    mov rax, 1\t\t; write syscall", "    syscall", "        "]
    case PrintStr(len, name) =>
      ["    ; print", "    mov rdx, " + Dec(len) + "\t\t; length to rdx", "    mov rsi, str_" + Chars(name) + "\t; address to rsi",
       "    mov\trdi, 1\t\t; stdout", "    mov rax, 1\t\t; write syscall", "    syscall", "        "]
    case CallTapePrint => ["    call tape_print"]
    case Exit => ["    ; exit", "    mov rax, 60", "    mov rdi, 0", "    syscall"]
    case TapePrintEntry =>
      ["", "; tape_print", "tape_print:", "    push rax", "    push rcx", "    mov byte [print_buf], '['",
       "    mov byte [print_buf+1], ' '", "        "]
    case CellCopy(i) =>
      ["    mov rax, [tape+" + Dec(i) + "]", "    mov [print_buf+" + Dec(CellAt(i)) + "], rax",
       "    mov byte [print_buf+" + Dec(SepAt(i)) + "], ' '", "    "]
    case KetNewLine(len) =>
      ["    mov byte [print_buf+" + Dec(KetAt(len)) + "], ']'", "    mov byte [print_buf+" + Dec(NewLineAt(len)) + "], 10"]
    case CaretFill(len) =>
      ["", "    mov ecx, head", "    mov rax, " + Dec(FillFrom(len)), "l1:", "    mov byte [print_buf+rax], ' '",
       "    inc rax", "    loop l1", "", "    mov byte [print_buf+rax], '^'", "    pop rax", "    pop rcx", "    ret", "        "]
  }

  /** The lines of the `println!`s, one after the other. */
  function Listing(es: seq<Emit>): seq<string>
  {
    if es == [] then [] else EmitLines(es[0]) + Listing(es[1..])
  }

  /** The table of string constants and what has been printed so far. */
  datatype Table = Table(syms: map<bytes, bytes>, out: seq<Emit>)

  /** `asm_str_name`: a string not in the table is entered under `name`
      and its data line is printed; a string already there changes nothing. */
  function Register(t: Table, s: bytes, name: bytes): Table
  {
    if s in t.syms then t else Table(t.syms[s := name], t.out + [Db(s, name)])
  }

  /** The strings of `items`, in order. */
  function Strs(items: seq<(bytes, bytes)>): (r: seq<bytes>)
    ensures |r| == |items| && forall k :: 0 <= k < |items| ==> r[k] == items[k].0
  {
    if items == [] then [] else Strs(items[..|items| - 1]) + [items[|items| - 1].0]
  }

  /** `asm_str_name` on each (string, name) pair of `items` in turn.  Every
      string of `items` ends up in the table, and nothing already there
      changes. */
  function RegisterAll(t: Table, items: seq<(bytes, bytes)>): (r: Table)
    ensures forall s :: s in r.syms <==> s in t.syms || s in Strs(items)
    ensures forall s :: s in t.syms ==> r.syms[s] == t.syms[s]
    ensures |t.out| <= |r.out| && r.out[..|t.out|] == t.out
    decreases |items|
  {
    if items == [] then t
    else
      var last := items[|items| - 1];
      var before := RegisterAll(t, items[..|items| - 1]);
      assert Strs(items) == Strs(items[..|items| - 1]) + [last.0];
      Register(before, last.0, last.1)
  }

  /** The strings `compile_program` enters first, each under a fixed name,
      in this order. */
  const FixedSymbols: seq<(bytes, bytes)> :=
    [(Bytes("["), Bytes("bra")), (Bytes("]"), Bytes("ket")), (Bytes("->"), Bytes("rightarrow")),
     (Bytes("<-"), Bytes("leftarrow")), (Bytes("^"), Bytes("halt")), (Bytes(" "), Bytes("space")),
     (Bytes("\n"), Bytes("nl")), (Bytes(" -- HALT -- "), Bytes("halted"))]

  /** The line feed `asm_print` is asked to print. */
  const NewLineStr: bytes := Bytes("\n")

  /** `asm_str` of the next state, the symbol read and the symbol written
      of each instruction, in program order; the state of an instruction
      is not entered. */
  function InstrSymbols(prog: seq<Instr>): (r: seq<(bytes, bytes)>)
    ensures |r| == 3 * |prog|
    ensures forall k :: 0 <= k < |prog| ==>
      r[3 * k] == (prog[k].next, prog[k].next) && r[3 * k + 1] == (prog[k].read, prog[k].read) &&
      r[3 * k + 2] == (prog[k].write, prog[k].write)
  {
    if prog == [] then []
    else
      var i := prog[|prog| - 1];
      InstrSymbols(prog[..|prog| - 1]) + [(i.next, i.next), (i.read, i.read), (i.write, i.write)]
  }

  /** `asm_str` of each cell of a tape, in order. */
  function CellSymbols(tape: seq<bytes>): (r: seq<(bytes, bytes)>)
    ensures |r| == |tape| && forall k :: 0 <= k < |tape| ==> r[k] == (tape[k], tape[k])
  {
    if tape == [] then [] else CellSymbols(tape[..|tape| - 1]) + [(tape[|tape| - 1], tape[|tape| - 1])]
  }

  /** Where `tape_print` puts cell `i` of the tape in `print_buf`. */
  function CellAt(i: nat): nat
  {
    (i + 1) * 2
  }

  /** Where the space after cell `i` goes. */
  function SepAt(i: nat): nat
  {
    CellAt(i) + 1
  }

  /** Where `]` goes, after `len` cells. */
  function KetAt(len: nat): nat
  {
    (len + 1) * 2
  }

  /** Where the line feed goes. */
  function NewLineAt(len: nat): nat
  {
    KetAt(len) + 1
  }

  /** Where the spaces before the caret start. */
  function FillFrom(len: nat): nat
  {
    KetAt(len) + 2
  }

  /** The number of bytes of `print_buf` that are printed after
      `call tape_print`. */
  function PrintBufLen(len: nat): nat
  {
    ((len + 1) * 2 + 1) * 2
  }

  /** Every cell of `tape` is one byte: the condition of the second assert
      of `compile_program`. */
  predicate OneByteCells(tape: seq<bytes>)
  {
    forall k :: 0 <= k < |tape| ==> |tape[k]| == 1
  }

  /** The first character of each cell. */
  function FirstChars(tape: seq<bytes>): (r: seq<char>)
    requires OneByteCells(tape)
    ensures |r| == |tape| && forall k :: 0 <= k < |tape| ==> r[k] == Char(tape[k][0])
  {
    if tape == [] then [] else FirstChars(tape[..|tape| - 1]) + [Char(tape[|tape| - 1][0])]
  }

  /** How `compile_program` ends: having printed the whole program, or
      panicking on `runs[0]` of a program without a run, on its assert of
      exactly one run, or on its assert that every cell is one byte. */
  datatype Outcome = Compiled | NoRun | NotOneRun | WideSymbol

  /** `write_to_static_buf`: a comment, then exactly one byte store per
      character, the `i`-th character at offset `i`. */
  function StaticBuf(buf: Buf, val: seq<char>): (r: seq<Emit>)
    ensures |r| == |val| + 1 && r[0] == StaticBufNote
    ensures forall i :: 0 <= i < |val| ==> r[i + 1] == StoreByte(buf, i, val[i])
  {
    if val == [] then [StaticBufNote] else StaticBuf(buf, val[..|val| - 1]) + [StoreByte(buf, |val| - 1, val[|val| - 1])]
  }

  /** The cell copies for cells `0` to `n - 1`, in order. */
  function CellCopies(n: nat): (r: seq<Emit>)
    ensures |r| == n && forall i :: 0 <= i < n ==> r[i] == CellCopy(i)
  {
    if n == 0 then [] else CellCopies(n - 1) + [CellCopy(n - 1)]
  }

  /** Everything `tape_print(len)` prints. */
  function TapePrintCode(len: nat): seq<Emit>
  {
    [TapePrintEntry] + CellCopies(len) + [KetNewLine(len), CaretFill(len)]
  }

  /** What is printed from the first run on, once every check has passed. */
  function TextPart(syms: map<bytes, bytes>, tape: seq<bytes>): seq<Emit>
    requires NewLineStr in syms && OneByteCells(tape)
  {
    var n := |tape|;
    StaticBuf(TapeBuf, FirstChars(tape)) + [PrintAddr(TapeBuf, n), PrintStr(|NewLineStr|, syms[NewLineStr]), CallTapePrint,
                                             PrintAddr(PrintBuf, PrintBufLen(n)), PrintStr(|NewLineStr|, syms[NewLineStr]), Exit]
    + TapePrintCode(n)
  }

  /** What is printed between the data section and the checks. */
  const TextHead: seq<Emit> := [Bss, TextSection, PublicStart, StartLabel, InitHead]

  /** The two header lines. */
  function Header(t: Table): Table
  {
    Table(t.syms, t.out + [Format, DataSection])
  }

  /** The table once the fixed strings and the instructions are entered. */
  function InstrsTable(t: Table, prog: seq<Instr>): (r: Table)
    ensures NewLineStr in r.syms
  {
    assert NewLineStr == Strs(FixedSymbols)[6];
    RegisterAll(RegisterAll(Header(t), FixedSymbols), InstrSymbols(prog))
  }

  /** `compile_program` on a table `t`. */
  function Compile(t: Table, p: Program): (Table, Outcome)
  {
    var instrs := InstrsTable(t, p.program);
    if |p.runs| == 0 then (instrs, NoRun)
    else
      var data := RegisterAll(instrs, CellSymbols(p.runs[0].tape));
      var checked := Table(data.syms, data.out + TextHead);
      if |p.runs| != 1 then (checked, NotOneRun)
      else if !OneByteCells(p.runs[0].tape) then (checked, WideSymbol)
      else (Table(checked.syms, checked.out + TextPart(checked.syms, p.runs[0].tape)), Compiled)
  }

  /** `write_to_static_buf`, one store per loop pass. */
  method WriteToStaticBuf(buf: Buf, val: seq<char>) returns (es: seq<Emit>)
    ensures es == StaticBuf(buf, val)
  {
    es := [StaticBufNote];
    var i := 0;
    while i < |val|
      invariant 0 <= i <= |val|
      invariant es == StaticBuf(buf, val[..i])
    {
      assert val[..i + 1][..i] == val[..i];
      es := es + [StoreByte(buf, i, val[i])];
      i := i + 1;
    }
    assert val[..i] == val;
  }

  /** The compiler: the string table and, as a model of standard output,
      the lines printed so far. */
  class Compiler {
    var symbols: map<bytes, bytes>
    var out: seq<Emit>

    /** `Compiler::default()`. */
    constructor ()
      ensures symbols == map[] && out == []
    {
      symbols := map[];
      out := [];
    }

    /** `asm_str_name` through `entry(..).or_insert_with(..)`. */
    method AsmStrName(s: bytes, name: bytes)
      modifies this
      ensures s in old(symbols) ==> symbols == old(symbols) && out == old(out)
      ensures s !in old(symbols) ==> symbols == old(symbols)[s := name] && out == old(out) + [Db(s, name)]
      ensures Table(symbols, out) == Register(old(Table(symbols, out)), s, name)
    {
      if s !in symbols {
        out := out + [Db(s, name)];
        symbols := symbols[s := name];
      }
    }

    /** `asm_str`: the string is its own name. */
    method AsmStr(s: bytes)
      modifies this
      ensures Table(symbols, out) == Register(old(Table(symbols, out)), s, s)
    {
      AsmStrName(s, s);
    }

    /** `asm_print`: the byte length of `s` and its label; the `unwrap`
        needs `s` to be in the table. */
    method AsmPrint(s: bytes)
      requires s in symbols
      modifies this`out
      ensures out == old(out) + [PrintStr(|s|, symbols[s])]
    {
      var name := symbols[s];
      out := out + [PrintStr(|s|, name)];
    }

    /** `asm_print_addr`. */
    method AsmPrintAddr(buf: Buf, len: nat)
      modifies this`out
      ensures out == old(out) + [PrintAddr(buf, len)]
    {
      out := out + [PrintAddr(buf, len)];
    }

    /** `tape_print(len)`, one copy per cell. */
    method TapePrint(len: nat)
      modifies this`out
      ensures out == old(out) + TapePrintCode(len)
    {
      out := out + [TapePrintEntry];
      ghost var start := out;
      for i := 0 to len
        invariant out == start + CellCopies(i)
      {
        out := out + [CellCopy(i)];
      }
      out := out + [KetNewLine(len)];
      out := out + [CaretFill(len)];
    }

    /** The strings `compile_program` enters first, one `asm_str_name`
        after the other. */
    method RegisterFixed()
      modifies this
      ensures Table(symbols, out) == RegisterAll(old(Table(symbols, out)), FixedSymbols)
    {
      ghost var t0 := Table(symbols, out);
      AsmStrName(FixedSymbols[0].0, FixedSymbols[0].1);
      assert Table(symbols, out) == FixedUpTo(t0, 1);
      AsmStrName(FixedSymbols[1].0, FixedSymbols[1].1);
      assert Table(symbols, out) == FixedUpTo(t0, 2);
      AsmStrName(FixedSymbols[2].0, FixedSymbols[2].1);
      assert Table(symbols, out) == FixedUpTo(t0, 3);
      AsmStrName(FixedSymbols[3].0, FixedSymbols[3].1);
      assert Table(symbols, out) == FixedUpTo(t0, 4);
      AsmStrName(FixedSymbols[4].0, FixedSymbols[4].1);
      assert Table(symbols, out) == FixedUpTo(t0, 5);
      AsmStrName(FixedSymbols[5].0, FixedSymbols[5].1);
      assert Table(symbols, out) == FixedUpTo(t0, 6);
      AsmStrName(FixedSymbols[6].0, FixedSymbols[6].1);
      assert Table(symbols, out) == FixedUpTo(t0, 7);
      AsmStrName(FixedSymbols[7].0, FixedSymbols[7].1);
      assert Table(symbols, out) == FixedUpTo(t0, 8);
      FixedUpToAll(t0, 8);
      assert FixedSymbols[..8] == FixedSymbols;
    }

    /** The `for` loop over the instructions. */
    method RegisterInstrs(prog: seq<Instr>)
      modifies this
      ensures Table(symbols, out) == RegisterAll(old(Table(symbols, out)), InstrSymbols(prog))
    {
      ghost var t0 := Table(symbols, out);
      for i := 0 to |prog|
        invariant Table(symbols, out) == RegisterAll(t0, InstrSymbols(prog[..i]))
      {
        var ins := prog[i];
        AsmStr(ins.next);
        AsmStr(ins.read);
        AsmStr(ins.write);
        InstrStep(t0, prog, i);
      }
      assert prog[..|prog|] == prog;
    }

    /** The `for` loop over the cells of the first run. */
    method RegisterCells(tape: seq<bytes>)
      modifies this
      ensures Table(symbols, out) == RegisterAll(old(Table(symbols, out)), CellSymbols(tape))
    {
      ghost var t0 := Table(symbols, out);
      for i := 0 to |tape|
        invariant Table(symbols, out) == RegisterAll(t0, CellSymbols(tape[..i]))
      {
        AsmStr(tape[i]);
        CellStep(t0, tape, i);
      }
      assert tape[..|tape|] == tape;
    }

    /** What `compile_program` prints once its checks have passed. */
    method EmitText(tape: seq<bytes>)
      requires NewLineStr in symbols && OneByteCells(tape)
      modifies this`out
      ensures out == old(out) + TextPart(symbols, tape)
    {
      var chars := FirstChars(tape);
      var stores := WriteToStaticBuf(TapeBuf, chars);
      out := out + stores;
      AsmPrintAddr(TapeBuf, |chars|);
      AsmPrint(NewLineStr);
      out := out + [CallTapePrint];
      AsmPrintAddr(PrintBuf, PrintBufLen(|chars|));
      AsmPrint(NewLineStr);
      out := out + [Exit];
      TapePrint(|chars|);
    }

    /** The header, then the data lines of the fixed strings and of the
        instructions. */
    method EmitData(prog: seq<Instr>)
      modifies this
      ensures Table(symbols, out) == InstrsTable(old(Table(symbols, out)), prog)
    {
      ghost var t0 := Table(symbols, out);
      out := out + [Format];
      out := out + [DataSection];
      assert Table(symbols, out) == Header(t0);
      RegisterFixed();
      RegisterInstrs(prog);
    }

    /** `asm_static_buf` and the start of the code. */
    method EmitTextHead()
      modifies this`out
      ensures out == old(out) + TextHead
    {
      out := out + [Bss];
      out := out + [TextSection];
      out := out + [PublicStart];
      out := out + [StartLabel];
      out := out + [InitHead];
    }

    /** `compile_program`: the header, the data section from the fixed
        strings, the instructions and the cells of the first run, the
        `bss` section and the start of the code; only then the checks, and
        then the code that prints the first configuration. */
    method CompileProgram(p: Program) returns (outcome: Outcome)
      modifies this
      ensures (Table(symbols, out), outcome) == Compile(old(Table(symbols, out)), p)
    {
      EmitData(p.program);
      if |p.runs| == 0 {
        return NoRun;
      }
      var run := p.runs[0];
      RegisterCells(run.tape);
      EmitTextHead();
      if |p.runs| != 1 {
        return NotOneRun;
      }
      if !OneByteCells(run.tape) {
        return WideSymbol;
      }
      EmitText(run.tape);
      outcome := Compiled;
    }
  }

  /** Entering one more pair after `items`. */
  lemma RegisterSnoc(t: Table, items: seq<(bytes, bytes)>, x: (bytes, bytes))
    ensures RegisterAll(t, items + [x]) == Register(RegisterAll(t, items), x.0, x.1)
  {
    assert (items + [x])[..|items|] == items;
  }

  /** The first `j` of the `asm_str_name` calls on the fixed strings. */
  function FixedUpTo(t: Table, j: nat): Table
    requires j <= |FixedSymbols|
  {
    if j == 0 then t else Register(FixedUpTo(t, j - 1), FixedSymbols[j - 1].0, FixedSymbols[j - 1].1)
  }

  /** They are the registration of the first `j` fixed pairs. */
  lemma {:induction false} FixedUpToAll(t: Table, j: nat)
    requires j <= |FixedSymbols|
    ensures FixedUpTo(t, j) == RegisterAll(t, FixedSymbols[..j])
  {
    if j > 0 {
      FixedUpToAll(t, j - 1);
      PrefixStep(t, FixedSymbols, j - 1);
    }
  }

  /** Entering the pair at `j` after those before it. */
  lemma PrefixStep(t: Table, items: seq<(bytes, bytes)>, j: nat)
    requires j < |items|
    ensures RegisterAll(t, items[..j + 1]) == Register(RegisterAll(t, items[..j]), items[j].0, items[j].1)
  {
    assert items[..j + 1][..j] == items[..j];
  }

  lemma InstrStep(t: Table, prog: seq<Instr>, i: nat)
    requires i < |prog|
    ensures var ins := prog[i];
      RegisterAll(t, InstrSymbols(prog[..i + 1])) ==
      Register(Register(Register(RegisterAll(t, InstrSymbols(prog[..i])), ins.next, ins.next), ins.read, ins.read), ins.write, ins.write)
  {
    var ins := prog[i];
    var before := InstrSymbols(prog[..i]);
    assert prog[..i + 1][..i] == prog[..i];
    assert InstrSymbols(prog[..i + 1]) == before + [(ins.next, ins.next)] + [(ins.read, ins.read)] + [(ins.write, ins.write)];
    RegisterSnoc(t, before, (ins.next, ins.next));
    RegisterSnoc(t, before + [(ins.next, ins.next)], (ins.read, ins.read));
    RegisterSnoc(t, before + [(ins.next, ins.next)] + [(ins.read, ins.read)], (ins.write, ins.write));
  }

  lemma CellStep(t: Table, tape: seq<bytes>, i: nat)
    requires i < |tape|
    ensures RegisterAll(t, CellSymbols(tape[..i + 1])) == Register(RegisterAll(t, CellSymbols(tape[..i])), tape[i], tape[i])
  {
    assert tape[..i + 1][..i] == tape[..i];
    RegisterSnoc(t, CellSymbols(tape[..i]), (tape[i], tape[i]));
  }
}
