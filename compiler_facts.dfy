/** What `compile_program` promises about its string table and its output:
    the first name given to a string wins, one data line is printed per
    string the first time it is met, the strings are entered in a fixed
    order, the checks come only after the data section, and the trace line
    `tape_print` lays out in `print_buf` is the interpreter's first line. */
module CompilerFacts {
  import opened Text
  import opened Parser
  import opened Interp
  import opened InterpFacts
  import opened Compiler

  /** The data lines of the strings of `items` not in `known`, each the first
      time it is met, in order: a reference definition that walks `items`
      from the front and keeps the set of strings seen. */
  function Fresh(known: set<bytes>, items: seq<(bytes, bytes)>): seq<Emit>
    decreases |items|
  {
    if items == [] then []
    else if items[0].0 in known then Fresh(known, items[1..])
    else [Db(items[0].0, items[0].1)] + Fresh(known + {items[0].0}, items[1..])
  }

  lemma StrsCons(x: (bytes, bytes), a: seq<(bytes, bytes)>)
    ensures Strs([x] + a) == [x.0] + Strs(a)
  {
  }

  /** Walking one more pair: its data line follows exactly when its string
      is neither known nor met before. */
  lemma {:induction false} FreshSnoc(known: set<bytes>, a: seq<(bytes, bytes)>, x: (bytes, bytes))
    ensures Fresh(known, a + [x]) ==
      Fresh(known, a) + (if x.0 in known || x.0 in Strs(a) then [] else [Db(x.0, x.1)])
    decreases |a|
  {
    if a == [] {
      assert [] + [x] == [x];
    } else {
      var y := a[0];
      assert (a + [x])[0] == y && (a + [x])[1..] == a[1..] + [x];
      assert a == [y] + a[1..];
      StrsCons(y, a[1..]);
      if y.0 in known {
        FreshSnoc(known, a[1..], x);
      } else {
        FreshSnoc(known + {y.0}, a[1..], x);
      }
    }
  }

  /** `RegisterAll` prints exactly the data lines `Fresh` lists for the
      strings not already in the table. */
  lemma {:induction false} RegisterAllOut(t: Table, items: seq<(bytes, bytes)>)
    ensures RegisterAll(t, items).out == t.out + Fresh(t.syms.Keys, items)
    decreases |items|
  {
    if items != [] {
      var a, x := items[..|items| - 1], items[|items| - 1];
      assert items == a + [x];
      RegisterAllOut(t, a);
      FreshSnoc(t.syms.Keys, a, x);
    }
  }

  /** The first name wins: a string not in the table ends up under the name
      of the first pair of `items` that gives it. */
  lemma {:induction false} FirstNameWins(t: Table, items: seq<(bytes, bytes)>, k: nat)
    requires k < |items| && items[k].0 !in t.syms
    requires forall j :: 0 <= j < k ==> items[j].0 != items[k].0
    ensures RegisterAll(t, items).syms[items[k].0] == items[k].1
    decreases |items|
  {
    var a, x := items[..|items| - 1], items[|items| - 1];
    var before := RegisterAll(t, a);
    assert RegisterAll(t, items) == Register(before, x.0, x.1);
    if k < |a| {
      assert a[k] == items[k];
      assert forall j :: 0 <= j < k ==> a[j] == items[j];
      FirstNameWins(t, a, k);
      assert items[k].0 in before.syms;
    } else {
      assert forall j :: 0 <= j < |a| ==> Strs(a)[j] == items[j].0;
      assert x.0 !in Strs(a);
    }
  }

  /** Entering `a` and then `b` is entering `a + b`. */
  lemma {:induction false} RegisterAllAppend(t: Table, a: seq<(bytes, bytes)>, b: seq<(bytes, bytes)>)
    ensures RegisterAll(t, a + b) == RegisterAll(RegisterAll(t, a), b)
    decreases |b|
  {
    if b == [] {
      assert a + b == a;
    } else {
      var b', x := b[..|b| - 1], b[|b| - 1];
      assert a + b == (a + b') + [x] && b == b' + [x];
      RegisterAllAppend(t, a, b');
      RegisterSnoc(t, a + b', x);
      RegisterSnoc(RegisterAll(t, a), b', x);
    }
  }

  /** Every pair `compile_program` enters, in the order of its calls: the
      fixed strings, then per instruction its next state, the symbol it
      reads and the symbol it writes, then the cells of the first run. */
  function Registrations(p: Program): (r: seq<(bytes, bytes)>)
    ensures |r| == |FixedSymbols| + 3 * |p.program| + (if |p.runs| > 0 then |p.runs[0].tape| else 0)
    ensures r[..|FixedSymbols|] == FixedSymbols
    ensures forall k :: 0 <= k < |p.program| ==>
      r[|FixedSymbols| + 3 * k] == (p.program[k].next, p.program[k].next) &&
      r[|FixedSymbols| + 3 * k + 1] == (p.program[k].read, p.program[k].read) &&
      r[|FixedSymbols| + 3 * k + 2] == (p.program[k].write, p.program[k].write)
    ensures |p.runs| > 0 ==> forall k :: 0 <= k < |p.runs[0].tape| ==>
      r[|FixedSymbols| + 3 * |p.program| + k] == (p.runs[0].tape[k], p.runs[0].tape[k])
  {
    FixedSymbols + InstrSymbols(p.program) + (if |p.runs| > 0 then CellSymbols(p.runs[0].tape) else [])
  }

  /** The table `compile_program` has built when its data section is
      complete. */
  function DataTable(t: Table, p: Program): Table
  {
    RegisterAll(Header(t), Registrations(p))
  }

  /** The data section is entered from `Registrations` in order, and it
      prints the header and then one data line per string the first time
      it is met. */
  lemma DataLines(t: Table, p: Program)
    ensures DataTable(t, p).out == t.out + [Format, DataSection] + Fresh(t.syms.Keys, Registrations(p))
    ensures |p.runs| == 0 ==> DataTable(t, p) == InstrsTable(t, p.program)
    ensures |p.runs| > 0 ==> DataTable(t, p) == RegisterAll(InstrsTable(t, p.program), CellSymbols(p.runs[0].tape))
  {
    var h := Header(t);
    RegisterAllOut(h, Registrations(p));
    assert h.syms.Keys == t.syms.Keys;
    RegisterAllAppend(h, FixedSymbols, InstrSymbols(p.program));
    if |p.runs| == 0 {
      assert Registrations(p) == FixedSymbols + InstrSymbols(p.program);
    } else {
      var cells := CellSymbols(p.runs[0].tape);
      assert Registrations(p) == (FixedSymbols + InstrSymbols(p.program)) + cells;
      RegisterAllAppend(h, FixedSymbols + InstrSymbols(p.program), cells);
    }
  }

  /** How `compile_program` ends: without a run it panics on `runs[0]`,
      with more than one on its first assert, with a cell of more than one
      byte on its second, and otherwise it compiles. */
  lemma CompileOutcome(t: Table, p: Program)
    ensures Compile(t, p).1 == NoRun <==> |p.runs| == 0
    ensures Compile(t, p).1 == NotOneRun <==> |p.runs| > 1
    ensures Compile(t, p).1 == WideSymbol <==> |p.runs| == 1 && !OneByteCells(p.runs[0].tape)
    ensures Compile(t, p).1 == Compiled <==> |p.runs| == 1 && OneByteCells(p.runs[0].tape)
  {
  }

  /** Whatever the outcome, the table is the one of the data section, and
      the whole data section has been printed: a panic on `runs[0]` comes
      right after it, the asserts only after the `bss` section and the
      start of the code, and a compiled program goes on with the code that
      prints the first configuration. */
  lemma CompileOutput(t: Table, p: Program)
    ensures Compile(t, p).0.syms == DataTable(t, p).syms
    ensures |p.runs| == 0 ==> Compile(t, p).0.out == DataTable(t, p).out
    ensures |p.runs| > 0 ==> DataTable(t, p).out + TextHead <= Compile(t, p).0.out
    ensures |p.runs| == 1 && OneByteCells(p.runs[0].tape) ==> (NewLineStr in DataTable(t, p).syms &&
      Compile(t, p).0.out == DataTable(t, p).out + TextHead + TextPart(DataTable(t, p).syms, p.runs[0].tape))
  {
    DataLines(t, p);
    if |p.runs| > 0 {
      var c := DataTable(t, p).out + TextHead;
      var r := Compile(t, p).0;
      if |p.runs| == 1 && OneByteCells(p.runs[0].tape) {
        assert r.out == c + TextPart(DataTable(t, p).syms, p.runs[0].tape);
      } else {
        assert r.out == c;
      }
    }
  }

  /** The fixed strings are pairwise different. */
  lemma FixedDistinct()
    ensures forall i, j :: 0 <= i < j < |FixedSymbols| ==> FixedSymbols[i].0 != FixedSymbols[j].0
  {
    var f := FixedSymbols;
    assert |f[0].0| == 1 && f[0].0[0] == 91 && |f[1].0| == 1 && f[1].0[0] == 93;
    assert |f[2].0| == 2 && f[2].0[0] == 45 && |f[3].0| == 2 && f[3].0[0] == 60;
    assert |f[4].0| == 1 && f[4].0[0] == 94 && |f[5].0| == 1 && f[5].0[0] == 32;
    assert |f[6].0| == 1 && f[6].0[0] == 10 && |f[7].0| == 12;
  }

  /** Into a table that holds none of them, each fixed string goes under its
      own fixed name, whatever the program registers after them. */
  lemma FixedNames(t: Table, p: Program, k: nat)
    requires k < |FixedSymbols| && forall j :: 0 <= j < |FixedSymbols| ==> FixedSymbols[j].0 !in t.syms
    ensures DataTable(t, p).syms[FixedSymbols[k].0] == FixedSymbols[k].1
  {
    var r := Registrations(p);
    FixedDistinct();
    assert forall j :: 0 <= j <= k ==> r[j] == r[..|FixedSymbols|][j] == FixedSymbols[j];
    FirstNameWins(Header(t), r, k);
  }

  /** The `print_buf` offsets of `tape_print` reproduce the interpreter's
      first trace line for one-byte cells: `[` at 0 and a space at 1, cell
      `i` at `CellAt(i)` and a space at `SepAt(i)`, `]` at `KetAt(len)` and
      the line feed at `NewLineAt(len)`, after which the caret line starts
      at `FillFrom(len)`. */
  lemma TapePrintLayout(tape: seq<bytes>, head: nat)
    requires |tape| > 0 && OneByteCells(tape)
    ensures |TapeText(tape, head)| == 2 * |tape| + 8 + 2 * head
    ensures TapeText(tape, head)[0] == '[' && TapeText(tape, head)[1] == ' '
    ensures forall i :: 0 <= i < |tape| ==>
      TapeText(tape, head)[CellAt(i)] == FirstChars(tape)[i] && TapeText(tape, head)[SepAt(i)] == ' '
    ensures TapeText(tape, head)[KetAt(|tape|)] == ']' && TapeText(tape, head)[NewLineAt(|tape|)] == '\n'
    ensures FillFrom(|tape|) == NewLineAt(|tape|) + 1
  {
    TapeColumns(tape, head);
    FirstLineColumns(tape);
    var n, text, line := |tape|, TapeText(tape, head), FirstLine(tape);
    forall i | 0 <= i < n
      ensures text[CellAt(i)] == FirstChars(tape)[i] && text[SepAt(i)] == ' '
    {
      var c, d := 2 + 2 * i, 3 + 2 * i;
      assert CellAt(i) == c && SepAt(i) == d;
      assert text[c] == line[c] == Char(tape[i][0]) == FirstChars(tape)[i];
      assert text[d] == line[d] == ' ';
    }
    assert text[0] == line[0] && text[1] == line[1];
    assert KetAt(n) == 2 * n + 2 && text[2 * n + 2] == line[2 * n + 2];
  }
}
