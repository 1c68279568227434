# Turir in Dafny

Turir is a small language for Turing machines. A source file holds transition
lines `STATE READ WRITE (<-|->) NEXT`, `#run [ CELLS ] START` commands,
`#halt STATES` commands and `//` comments. The `run` command interprets the
program and prints a trace of every step. The `compile` command prints
flat-assembler text for the first run.

This project models four parts of that program:

- **The lexer** (`lexer.dfy`). It scans the source buffer byte by byte. It
  hands out symbols, quoted symbols, commands, arrows, brackets, line feeds
  (a comment becomes part of its line's line feed), unknown bytes, unclosed
  quotes and end of input, each with a `file:row:col` location.
  - The scanner is written twice. The first form is functions on a cursor
    state `Pos(cur, bol, row)`; `Lexer.Scan` is one `next_token`. The
    second is the class `Lexer.Lexer`, whose methods update `cur`, `bol`
    and `row` in place.
  - Each method is proved to move the fields exactly as the functions
    say, and to keep the invariant that `bol` and `row` agree with `cur`.
  - `lexer_facts.dfy` proves the shape of every kind of result: maximal
    munch, strings, literals in table order, comments, locations, and end
    of input exactly on trailing blanks.
- **The parser** (`parser.dfy`). The grammar is given as functions over the
  stream of lexer results (`Parser.Tokens`).
  - The class `Parser.Parser` reads the same results from a live lexer.
    Each of its methods is proved to return what the grammar function
    returns and to leave the lexer where that function leaves the stream.
  - `parser_facts.dfy` proves:
    - an instruction is exactly six tokens;
    - a `#run` is `Cmd`, `[`, the cells, `]`, the start state and a line
      feed;
    - the symbol loops collect a maximal run of symbols;
    - statements are collected in order, with the last `#halt` winning and
      `HALT` as the default.
  - `source_facts.dfy` proves an instruction's round trip through its
    printed form, and a worked parse error with its message text.
- **The interpreter** (`interp.dfy`), that is `tape_print` and
  `execute_program`.
  - Everything written to the buffered output is a sequence of write
    events, a flush being one of them. A run is given a number of steps
    (`fuel`), because it need not terminate.
  - `interp_facts.dfy` proves:
    - a step writes only the cell under the head;
    - the halt test looks at the new state;
    - the tape grows by at most one filler cell per step;
    - each run's trace starts with its header, first instruction and tape;
    - the runs are executed in order until one does not halt;
    - more steps never change a run that has ended;
    - the printed tape has a fixed column layout.
- **The compiler** (`compiler.dfy`). The class `Compiler.Compiler` keeps the
  string table (`symbols`) and models each `println!` as an event appended
  to `out`.
  - `compiler_facts.dfy` proves:
    - a string's first name wins;
    - one data line is printed per string, the first time it is met;
    - strings are entered in the fixed order of `compile_program`;
    - `compile_program`'s checks fail only after the data section has
      been printed;
    - the `print_buf` offsets of the generated `tape_print` are the
      interpreter's columns for one-byte cells.

Source buffers are byte sequences (`Text.byte`). Printed text is `string`,
one character per byte (`Text.Chars`). Every source buffer ends in a line
feed (`Lexer.WellTerminated`), because `read_source` appends one. That is
the lexer's only precondition.

## Model

| member | source | states |
|---|---|---|
| Text.Chars | src/lexer.rs:87-89 | a token's text has one character per byte of the source slice |
| Text.CharsAppend | src/lexer.rs:87-89 | the conversion of a concatenation is the concatenation of the conversions |
| Text.Bytes | src/compiler.rs:70-71 | a string literal's bytes (`as_bytes`): one byte per character, each with that character's code |
| Text.CharsBytes | src/compiler.rs:70-71 | writing those bytes out again gives the literal back |
| Text.Dec | src/lexer.rs:36-40 | the decimal form of a row or column is non-empty, all digits, and starts with `0` only for zero |
| Text.DecRoundTrip | src/lexer.rs:36-40 | reading the printed decimal digits back gives the number |
| Text.Join | src/parser.rs:60-64 | joining no items gives the empty string; joining one item gives that item |
| Text.EachThenJoin | src/main.rs:25-28 | writing every cell but the last followed by the separator, and then the last cell, gives the cells joined by the separator |
| Text.JoinSnoc | src/parser.rs:60-64 | one more item adds the separator and the item at the end |
| Text.Spaces | src/main.rs:29-32 | the padding has exactly `n` characters, all spaces |
| Text.EscapeChar | src/parser.rs:67-69 | `{:?}` turns every character into a non-empty escape |
| Text.EscapeAll | src/parser.rs:67-69 | escaping never shortens a text |
| Text.DebugStr | src/parser.rs:67-69 | `{:?}` of a token text is enclosed in double quotes |
| Text.EscapeAllPlain | src/parser.rs:67-69 | printable text without backslash or double quote is shown unchanged between the quotes |
| Lexer.Advance | src/lexer.rs:107-114 | one byte consumed: the cursor moves by one; a line feed starts a new row at the next byte; any other byte keeps row and line start |
| Lexer.PosAt | src/lexer.rs:105-115 | the cursor state reached from the start of the buffer at byte `k` |
| Lexer.Skipped | src/lexer.rs:105-115 | `skip_n(n)` moves the cursor by exactly `n` bytes and stays inside the buffer |
| Lexer.SpaceEnd | src/lexer.rs:91-96 | `trim_left` stops at the end of the buffer or at the first byte that is not tab, form feed, carriage return or space |
| Lexer.IndexFrom | src/lexer.rs:132-136 | `skip_until(b)` stops at the end or at the first `b`; in a buffer ending in `b` it stops before the end |
| Lexer.RunEnd | src/lexer.rs:148-151 | the symbol loop of `extract_token` stops at the end or at the first byte that is not a symbol byte |
| Lexer.QuoteEnd | src/lexer.rs:160-168 | the quote loop stops, strictly after the opening quote and before the end, at the first line feed or quote |
| Lexer.Slice | src/lexer.rs:87-89 | the token text is exactly the bytes from `start` to the cursor |
| Lexer.LiteralFits | src/lexer.rs:98-103 | in a buffer ending in a line feed, when `starts_with` accepts a literal, the whole literal lies inside the buffer |
| Lexer.FirstLiteral | src/lexer.rs:203-212 | the literal search returns a literal the cursor starts with, or the table size when none matches |
| Lexer.ScanLiteral | src/lexer.rs:203-218 | the literal or unknown-byte branch always consumes at least one byte and reports the location taken before it |
| Lexer.Dispatch | src/lexer.rs:191-218 | after the blanks, a scan always consumes a byte, never reports end of input, and keeps the location taken before it |
| Lexer.Scan | src/lexer.rs:178-219 | `next_token` never moves the cursor back, and moves it forward unless it reports end of input |
| Lexer.Lexer.constructor | src/lexer.rs:59-67 | a new lexer stands at byte 0, row 0 and line start 0, and keeps its buffer and file label |
| Lexer.Lexer.SkipN | src/lexer.rs:105-115 | the fields become `Skipped` of the old state; the row and line-start invariant is kept |
| Lexer.Lexer.TrimLeft | src/lexer.rs:91-96 | the cursor moves to `SpaceEnd`; row and line start do not change |
| Lexer.Lexer.SkipUntil | src/lexer.rs:132-136 | the cursor moves to `IndexFrom`; when skipping to a line feed, row and line start do not change |
| Lexer.Lexer.ExtractToken | src/lexer.rs:138-157 | one byte and then every symbol byte is consumed; the token has the given kind, the bytes from `start` and the given location |
| Lexer.Lexer.ExtractStringToken | src/lexer.rs:159-176 | a closing quote gives a `Symbol` token of the bytes between the quotes, and the quote is consumed; an earlier line feed gives `UnclosedStr` with the cursor left on it |
| Lexer.Lexer.NextToken | src/lexer.rs:178-219 | the result and the new fields are exactly `Scan` of the old fields |
| Lexer.Lexer.DispatchToken | src/lexer.rs:191-218 | the quote, command, symbol and literal branches compute `Dispatch` |
| Lexer.Lexer.LiteralToken | src/lexer.rs:203-218 | the literal loop and the unknown-byte fallback compute `ScanLiteral` |
| Lexer.Lexer.PeekToken | src/lexer.rs:125-130 | a peek returns the result `next_token` would produce and restores cursor, line start and row |
| Lexer.PeekThenNext | src/lexer.rs:125-130 | a peek and then a scan see the same result, and only the scan moves the lexer |
| LexerFacts.IsSymbolFromLiterals | src/lexer.rs:226-231 | `is_symbol`'s check against every byte of every literal is the same as excluding `-`, `>`, `<`, `[`, `]` and line feed |
| LexerFacts.PosAtMeaning | src/lexer.rs:105-115 | after `k` bytes the row is the number of line feeds before `k`, and the line start is just past the last of them |
| LexerFacts.TracksNoNewline | src/lexer.rs:105-115 | moving over bytes that are not line feeds keeps row and line start correct |
| LexerFacts.SpaceEndAll | src/lexer.rs:91-96 | every byte `trim_left` skips is horizontal space |
| LexerFacts.SpaceEndIs | src/lexer.rs:91-96 | `trim_left` stops at the first byte that is not a space, and at no earlier one |
| LexerFacts.IndexFromNone | src/lexer.rs:132-136 | no byte `skip_until(b)` skips is `b` |
| LexerFacts.IndexFromIs | src/lexer.rs:132-136 | `skip_until(b)` stops exactly at the first `b` |
| LexerFacts.RunEndAll | src/lexer.rs:148-151 | every byte the symbol loop consumes is a symbol byte |
| LexerFacts.RunEndIs | src/lexer.rs:148-151 | the symbol loop stops exactly at the first byte that is not a symbol byte |
| LexerFacts.QuoteEndBetween | src/lexer.rs:160-168 | no byte between the opening quote and the stop is a quote or a line feed |
| LexerFacts.QuoteEndIs | src/lexer.rs:160-168 | the quote loop stops exactly at the first quote or line feed |
| LexerFacts.StartsWithAtFits | src/lexer.rs:98-103 | where the literal fits, `starts_with` holds exactly when the next bytes equal the literal |
| LexerFacts.StartsWithAtPrefix | src/lexer.rs:98-103 | near the end of the buffer, `starts_with` compares only the bytes that are left, so a literal cut off by the end still matches |
| LexerFacts.SkippedTracks | src/lexer.rs:105-115 | `skip_n` keeps the row and line-start invariant |
| LexerFacts.FirstLiteralFrom | src/lexer.rs:203-212 | the literal search returns the first literal in table order that the cursor starts with |
| LexerFacts.DispatchTracks | src/lexer.rs:191-218 | every branch after the blanks keeps the row and line-start invariant |
| LexerFacts.QuoteTracks | src/lexer.rs:159-176 | both ends of a quoted symbol keep the invariant |
| LexerFacts.RunTracks | src/lexer.rs:138-157 | the end of a symbol or command keeps the invariant |
| LexerFacts.LiteralTracks | src/lexer.rs:203-218 | the literal and unknown-byte branches keep the invariant |
| LexerFacts.ScanTracks | src/lexer.rs:178-219 | `next_token` keeps the row and line-start invariant |
| LexerFacts.ScanLocation | src/lexer.rs:179-182 | the location is taken after the blanks: its row is the number of line feeds before it and its column is the distance to the line start |
| LexerFacts.ScanLoc | src/lexer.rs:117-123 | the location's row is the lexer's row, and its column is the position after the blanks minus the line start |
| LexerFacts.ScanEofIffBlank | src/lexer.rs:179-186 | end of input is reported if and only if only horizontal space is left |
| LexerFacts.ScanRun | src/lexer.rs:195-201 | a symbol byte starts a maximal run of symbol bytes; the token is `Cmd` exactly when the run starts with `#` |
| LexerFacts.ScanRunIs | src/lexer.rs:195-201 | the token of a run of symbol bytes ended by any other byte is that run |
| LexerFacts.ScanQuoted | src/lexer.rs:159-176 | a quote gives the bytes up to the next quote as a `Symbol`, or `UnclosedStr` when a line feed comes first |
| LexerFacts.ScanComment | src/lexer.rs:187-189 | `//` gives one `NewLine` token whose text runs from the comment to its line feed, and the next row begins |
| LexerFacts.ScanAt | src/lexer.rs:187-201 | without a comment, a scan is the dispatch at the first non-blank byte and its location |
| LexerFacts.DispatchLiteral | src/lexer.rs:199-203 | a byte that is neither a symbol byte nor a quote goes to the literal search |
| LexerFacts.LiteralFound | src/lexer.rs:203-211 | the first matching literal is consumed whole and returned with its kind |
| LexerFacts.LiteralNotFound | src/lexer.rs:214-218 | when no literal matches, one byte is consumed and returned as `Unknown` |
| LexerFacts.FirstLiteralIs | src/lexer.rs:78-84 | no two literals of the table are prefixes of one another, so the literal the bytes spell is the one found |
| LexerFacts.ScanLiteralAt | src/lexer.rs:203-211 | a literal after the blanks becomes its token at the location of its first byte |
| LexerFacts.ScanRightArrow | src/lexer.rs:203-211 | `->` is a `RightArrow` token of two bytes |
| LexerFacts.ScanLeftArrow | src/lexer.rs:203-211 | `<-` is a `LeftArrow` token of two bytes |
| LexerFacts.ScanBra | src/lexer.rs:203-211 | `[` is a `Bra` token |
| LexerFacts.ScanKet | src/lexer.rs:203-211 | `]` is a `Ket` token |
| LexerFacts.ScanNewLine | src/lexer.rs:203-211 | a line feed is a `NewLine` token, and the next row begins after it |
| LexerFacts.ScanUnknown | src/lexer.rs:214-218 | `>`, and `-` or `<` not followed by the rest of an arrow, are a one-byte `Unknown` |
| LexerFacts.LiteralNotRun | src/lexer.rs:203-218 | the literal branch never produces a `Symbol` or a `Cmd` |
| LexerFacts.ScanRunShape | src/lexer.rs:191-201 | every `Symbol` or `Cmd` that does not start with a quote is a maximal run of symbol bytes, and is a `Cmd` exactly when it starts with `#` |
| LexerFacts.LocTextDecodes | src/lexer.rs:36-40 | `file:row:col` can be read back into the location it prints |
| Parser.DirText | src/parser.rs:11-19 | a direction prints as the name of its arrow token |
| Parser.CellTexts | src/parser.rs:27-37 | each cell is printed as its own text |
| Parser.KindNames | src/parser.rs:60-64 | each expected kind is printed by `to_str` |
| Parser.Tokens | src/parser.rs:84-90 | the results `next_token` hands out one after the other: tokens, then exactly one end, unknown or unclosed result |
| Parser.States | src/parser.rs:84-90 | the lexer state each of those results is scanned from, starting at the given state |
| Parser.TokensLinked | src/parser.rs:84-90 | each result is `Scan` of its state, and each state is what the previous scan left |
| Parser.Expect | src/parser.rs:92-102 | `expect_token` succeeds exactly on a token of one of the kinds and moves one result forward; otherwise it fails with that list of kinds and the result it got |
| Parser.Instruction | src/parser.rs:104-125 | a parsed instruction uses exactly six results |
| Parser.TapeCells | src/parser.rs:133-141 | the cell loop consumes at least the closing bracket |
| Parser.RunCommand | src/parser.rs:127-145 | `#run` consumes at least one result and never reaches `unreachable!` |
| Parser.HaltStates | src/parser.rs:152-160 | the state loop consumes at least the line feed |
| Parser.HaltCommand | src/parser.rs:147-163 | `#halt` consumes at least one result and never reaches `unreachable!` |
| Parser.Statement | src/parser.rs:215-229 | every statement that parses consumes at least one result |
| Parser.StatementsNext | src/parser.rs:203-230 | the statement loop is the first statement followed by the loop from where it stopped, or the first statement's error |
| Parser.Finish | src/parser.rs:231-233 | an empty halt list becomes `HALT`; a non-empty one, the runs and the instructions are kept |
| Parser.Parser.constructor | src/parser.rs:80-82 | a parser over a lexer starts at the first result of the lexer's stream |
| Parser.Parser.PeekToken | src/parser.rs:84-86 | a peek returns the current result and does not advance |
| Parser.Parser.SkipToken | src/parser.rs:88-90 | a skip advances by one result |
| Parser.Parser.ExpectToken | src/parser.rs:92-102 | returns what `Expect` returns at the current result and, on success, stands one result further |
| Parser.Parser.ParseInstr | src/parser.rs:104-125 | returns what `Instruction` returns and stands where it stops |
| Parser.Parser.ParseTapeCells | src/parser.rs:133-141 | returns what `TapeCells` returns and stands where it stops |
| Parser.Parser.ParseCmdRun | src/parser.rs:127-145 | returns what `RunCommand` returns and stands where it stops |
| Parser.Parser.ParseCmdHalt | src/parser.rs:147-163 | returns what `HaltCommand` returns and stands where it stops |
| Parser.Parser.ParseStatement | src/parser.rs:215-229 | returns what `Statement` returns and stands where it stops |
| Parser.ParseSource | src/parser.rs:191-240 | `parse_source` returns exactly the program, or the first error, of the grammar over the lexer's stream of the buffer |
| ParserFacts.InstructionGrammar | src/parser.rs:104-125 | an instruction is six results of the kinds Symbol, Symbol, Symbol, arrow, Symbol, NewLine; the first one that does not fit is the error, with the kinds asked for there |
| ParserFacts.LinkedTokens | src/parser.rs:84-90 | conversely, results each scanned from the state the previous scan left are the lexer's stream |
| ParserFacts.SymbolsEnd | src/parser.rs:133-141 | the maximal run of `Symbol` tokens from a position |
| ParserFacts.TapeCellsRun | src/parser.rs:133-141 | the cells are the texts of that run of symbols when a `]` follows, and otherwise an error expecting Symbol or Ket |
| ParserFacts.HaltStatesRun | src/parser.rs:152-160 | the halt states are the texts of that run of symbols when a line feed follows, and otherwise an error expecting NewLine or Symbol |
| ParserFacts.RunCommandStart | src/parser.rs:130-131 | `#run` fails expecting Cmd at its first result unless it is a `Cmd`, and expecting Bra at its second unless it is `[` |
| ParserFacts.RunCommandGrammar | src/parser.rs:127-145 | after `Cmd` and `[`, the cells are the texts of the maximal run of `Symbol` tokens, then `]`, the start state's `Symbol` and the line's end are consumed; the first of these three that does not fit is the error, with the kinds asked for there |
| ParserFacts.CollectAppends | src/parser.rs:220-226 | runs and instructions are collected in source order |
| ParserFacts.CollectKeepsHalt | src/parser.rs:225 | statements without `#halt` do not change the halt list |
| ParserFacts.CollectLastHalt | src/parser.rs:225 | the last `#halt` replaces every earlier one |
| ParserFacts.ProgramOfShape | src/parser.rs:231-239 | a parsed program has the statements' runs and instructions in order; its halt list is `HALT` without a `#halt`, and otherwise the last `#halt`'s states, or `HALT` when those are empty |
| ParserFacts.ProgramOfFails | src/parser.rs:203-213 | the program parses if and only if the statement loop does, and otherwise fails with the loop's error |
| ParserFacts.StatementsUnreachable | src/parser.rs:228 | `unreachable!` is reached only on a token that opens no statement; a non-token result at a statement start is an error expecting Symbol or Cmd |
| ParserFacts.RunTextJoin | src/parser.rs:27-37 | a run prints as `#run [ `, the cells joined by spaces, ` ] ` and the start state |
| ParserFacts.ErrTextJoin | src/parser.rs:50-64 | an error prints its location, `: Expected `, the kinds joined by ` or `, and what it got |
| SourceFacts.ShortInstrTokens | src/lexer.rs:178-219 | the bytes `A 0` and a line feed scan to two symbols, a line feed and end of input, at their columns |
| SourceFacts.ShortInstrSymbols | src/lexer.rs:195-201 | the two symbols of that line, with their columns and where each scan stops |
| SourceFacts.ShortInstrLineEnd | src/lexer.rs:203-211 | the line feed and then end of input on the next row |
| SourceFacts.ShortInstrFails | src/parser.rs:104-125 | that source fails where the written symbol is expected and a line feed is found |
| SourceFacts.ShortInstrMessage | src/parser.rs:50-74 | the message is `file:1:4: Expected Symbol but got new line "\n"` |
| SourceFacts.LineFeedShown | src/parser.rs:67-69 | `{:?}` of a line feed is `"\n"` |
| SourceFacts.InstrBytesText | src/parser.rs:181-189 | the bytes of an instruction read as the text `Display` prints |
| SourceFacts.FieldScan | src/lexer.rs:195-201 | a field after at most one space scans to exactly that field |
| SourceFacts.ArrowScan | src/lexer.rs:203-211 | a space and an arrow scan to that arrow |
| SourceFacts.LastLineScan | src/lexer.rs:203-211 | the final line feed, then end of input on the next row |
| SourceFacts.InstrLayout | src/parser.rs:181-189 | each field, space and arrow of a printed instruction is at its offset |
| SourceFacts.LineTokens | src/lexer.rs:178-219 | a line laid out as a printed instruction scans to the instruction's six tokens and end of input |
| SourceFacts.InstrTokens | src/lexer.rs:178-219 | the printed instruction with a line feed scans to those tokens |
| SourceFacts.InstrStreamParses | src/parser.rs:191-240 | those tokens parse to a program with that one instruction, no run and halt list `HALT` |
| SourceFacts.InstrRoundTrip | src/parser.rs:181-189 | printing an instruction of symbol bytes (not starting with `#` or `//`) and parsing the text back gives that instruction |
| Interp.Lookup | src/main.rs:47-57 | the instruction found is the first in program order for the state and the symbol read; none is found exactly when no instruction matches |
| Interp.TapePrint | src/main.rs:22-34 | the text written is the tape line and the caret line of `TapeText` |
| Interp.CellsPrint | src/main.rs:25-27 | each cell but the last is written followed by a space |
| Interp.PadPrint | src/main.rs:30-32 | two spaces per head position |
| Interp.Flushed | src/main.rs:80 | the writes up to the last flush: the last of them is a flush, and no later write is one |
| Interp.StepMachine | src/main.rs:67-79 | the loop body computes `Step` |
| Interp.ExecuteRun | src/main.rs:40-61 | one run computes `RunTrace` |
| Interp.RunSteps | src/main.rs:62-86 | the loop computes `Steps` |
| Interp.ExecuteProgram | src/main.rs:37-92 | `execute_program` computes `ProgramSession` |
| InterpFacts.StepLaws | src/main.rs:67-79 | a left move at cell 0 underflows; otherwise the run stops exactly when the new state halts. The state becomes the next state and the head moves by one. Only the head cell changes, to the written symbol. The tape grows only on a step that goes on, by one filler cell, when the head runs off the right end |
| InterpFacts.StepsAcc | src/main.rs:62-86 | what the loop writes does not depend on what was written before it |
| InterpFacts.RunTraceAcc | src/main.rs:40-86 | the same for a whole run |
| InterpFacts.StepsPrefix | src/main.rs:62-86 | the loop only appends to what was written |
| InterpFacts.FirstStep | src/main.rs:41-65 | a run whose first lookup succeeds writes its header, then the first instruction, then the initial tape with the head at 0 |
| InterpFacts.FirstLookupFails | src/main.rs:47-60 | a failed first lookup ends the run after its header, which is not flushed |
| InterpFacts.StepsEnd | src/main.rs:62-86 | a halt ends with the final tape, the halt line and an empty line; an undefined pair is one no instruction matches, after a flush. The tape grows by at most one cell per step |
| InterpFacts.StepsFuel | src/main.rs:62-86 | more steps do not change a loop that has ended |
| InterpFacts.RunTraceFuel | src/main.rs:40-87 | more steps do not change a run that has ended |
| InterpFacts.RunsFromStep | src/main.rs:40-87 | the runs go one after the other, and one that does not halt ends the program |
| InterpFacts.RunsSkip | src/main.rs:40-87 | halting runs write their traces one after the other |
| InterpFacts.RunsAllHalt | src/main.rs:40-91 | when every run halts, the output is the traces in order and a final flush |
| InterpFacts.RunsStop | src/main.rs:40-87 | the first run that does not halt ends the output after its trace |
| InterpFacts.TapeTextJoin | src/main.rs:22-34 | the tape prints as `[ `, the cells joined by spaces, ` ]`, a line feed, two spaces, two more per head position, and `^` |
| InterpFacts.EachThenColumns | src/main.rs:25-27 | for one-character cells, cell `i` is at column `2i` followed by a space |
| InterpFacts.FirstLineColumns | src/main.rs:23-28 | for one-character cells the first line has `2n + 3` characters: `[` and a space, cell `i` at column `2 + 2i` followed by a space, and `]` last |
| InterpFacts.TapeColumns | src/main.rs:22-34 | the tape text is the first line, a line feed, and a caret at column `2 + 2*head` of the second line |
| Compiler.DbValues | src/compiler.rs:70-75 | each byte of a string is printed as its decimal value |
| Compiler.RegisterAll | src/compiler.rs:135-152 | after a sequence of `asm_str_name` calls every string given is in the table; entries already there keep their names; the output only grows |
| Compiler.InstrSymbols | src/compiler.rs:144-148 | per instruction, the next state, the symbol read and the symbol written, each under its own text |
| Compiler.CellSymbols | src/compiler.rs:150-152 | each cell of the first run under its own text |
| Compiler.FirstChars | src/compiler.rs:169-173 | the first character of each cell, in order |
| Compiler.StaticBuf | src/compiler.rs:17-22 | a comment line, then one byte store per character at its index |
| Compiler.CellCopies | src/compiler.rs:94-103 | one copy block per cell, in order |
| Compiler.InstrsTable | src/compiler.rs:133-148 | after the header, the fixed strings and the instructions, the line feed string is in the table |
| Compiler.WriteToStaticBuf | src/compiler.rs:17-22 | the loop prints `StaticBuf` |
| Compiler.Compiler.constructor | src/compiler.rs:33-36 | a new compiler has an empty table and has printed nothing |
| Compiler.Compiler.AsmStrName | src/compiler.rs:69-80 | a new string is entered under the name and its data line is printed; a known string changes nothing |
| Compiler.Compiler.AsmStr | src/compiler.rs:65-67 | a string is entered under its own text |
| Compiler.Compiler.AsmPrint | src/compiler.rs:38-51 | prints a write of the string's length from the label the table gives it |
| Compiler.Compiler.AsmPrintAddr | src/compiler.rs:53-63 | prints a write of `len` bytes from the buffer |
| Compiler.Compiler.TapePrint | src/compiler.rs:82-130 | prints the routine for a tape of `len` cells: the entry, one copy block per cell, the bracket and line feed, and the caret fill |
| Compiler.Compiler.RegisterFixed | src/compiler.rs:135-142 | the eight fixed strings are entered in order under their fixed names |
| Compiler.Compiler.RegisterInstrs | src/compiler.rs:144-148 | the loop enters the instruction strings in order |
| Compiler.Compiler.RegisterCells | src/compiler.rs:150-152 | the loop enters the first run's cells in order |
| Compiler.Compiler.EmitText | src/compiler.rs:169-188 | prints the tape stores, the tape and line feed writes, the call, the `print_buf` write of `((len + 1) * 2 + 1) * 2` bytes, the line feed, the exit and the routine |
| Compiler.Compiler.EmitData | src/compiler.rs:133-148 | prints the header and enters the fixed and instruction strings |
| Compiler.Compiler.EmitTextHead | src/compiler.rs:154-160 | prints the `bss` section and the start of the code |
| Compiler.Compiler.CompileProgram | src/compiler.rs:132-189 | the new table, output and outcome are those of `Compile` |
| CompilerFacts.Fresh | src/compiler.rs:76-79 | a reference definition: one data line per string not yet seen, in order |
| CompilerFacts.FreshSnoc | src/compiler.rs:76-79 | one more pair adds its data line exactly when its string was neither known nor met before |
| CompilerFacts.RegisterAllOut | src/compiler.rs:69-80 | a sequence of `asm_str_name` calls prints exactly the `Fresh` data lines |
| CompilerFacts.FirstNameWins | src/compiler.rs:76-79 | a new string ends up under the name of the first pair that gives it |
| CompilerFacts.RegisterAllAppend | src/compiler.rs:135-152 | entering `a` and then `b` is the same as entering `a + b` |
| CompilerFacts.Registrations | src/compiler.rs:135-152 | every pair entered, in call order: the eight fixed pairs, three per instruction, then one per cell of the first run |
| CompilerFacts.DataLines | src/compiler.rs:133-152 | the data section is the header, then one data line per string the first time it is met, in call order |
| CompilerFacts.CompileOutcome | src/compiler.rs:150-167 | no run panics at `runs[0]`; more than one fails the first assert; a cell of more than one byte fails the second; otherwise the program compiles |
| CompilerFacts.CompileOutput | src/compiler.rs:132-189 | every outcome prints the whole data section. The asserts fail only after the `bss` section and the start of the code. A compiled program then prints the code part |
| CompilerFacts.FixedDistinct | src/compiler.rs:135-142 | the eight fixed strings are pairwise different |
| CompilerFacts.FixedNames | src/compiler.rs:135-142 | each fixed string keeps its fixed name, whatever the program enters after it |
| CompilerFacts.TapePrintLayout | src/compiler.rs:82-130 | the routine's `print_buf` offsets match the interpreter's first trace line for one-byte cells: cell `i` at `(i+1)*2` with a space after it, `]` at `(len+1)*2`, the line feed next, and the caret line right after |

## Left out

- Input and output: reading and opening files, argument parsing, the usage
  text, `main`'s error printing and exit codes. `err.rs`, `parse_args` and
  `main` are not part of this model. From `read_source` only the appended
  line feed is kept, as the precondition `Lexer.WellTerminated`.
- UTF-8: source buffers are bytes, and printed text has one character per
  byte (`Text.Chars`). A multi-byte UTF-8 character therefore prints as
  several characters. `Text.EscapeChar` covers `{:?}` only for the
  escapes of control and ASCII characters; Unicode's printable-character
  tables are not modelled.
- Interp.ExecuteProgram: a run need not terminate, so each run gets a
  number of steps (`fuel`). A run that uses them all ends with
  `OutOfFuel`, which the source has no counterpart for.
  `InterpFacts.StepsFuel` and `InterpFacts.RunTraceFuel` show that more
  steps never change a run that has ended.
- Interp.Visible: `BufWriter` may write on its own when its buffer fills.
  The model only says that an undefined pair, which ends the process with
  `exit`, keeps at least what was flushed last.
- Interp.Step: a left move from cell 0 is modelled as the outcome
  `Underflow`, which is the debug build's panic. A release build's
  wrap-around of `usize` is not modelled.
- Panic messages are not modelled. Each panic is an outcome:
  - an empty `#run` tape is `EmptyTape`, after the `#run [ ` that
    `Display` wrote;
  - an underflow is `Underflow`;
  - a failed `compile_program` assert is `NotOneRun` or `WideSymbol`;
  - a missing `runs[0]` is `NoRun`.
- Parser.Parser.SkipToken: it requires the current result to be a token.
  At its only call site, in `parse_source`, it is; the source's
  `skip_token` would also accept any other result.
- Compiler: the generated assembly is modelled as events, one per
  `println!`, in the class's `out`, with `Compiler.Listing` giving their
  lines. What the assembly does when run is not modelled. In particular:
  - copying each cell with an 8-byte `mov rax`;
  - `mov ecx, head` loading the address of `head` rather than its value;
  - the count of the caret-fill loop.
- Compiler.FirstChars: for a one-byte cell, the first character is that
  byte's character. A cell that is a multi-byte UTF-8 character fails the
  one-byte check before this point.
- The `HashMap` of the compiler is an ordinary `map`; its hashing and
  iteration order are not part of what it prints.

Two points about `compile_program` that the model follows:

- It prints the whole data section, the `bss` section and the start of
  the code before its asserts (`CompilerFacts.CompileOutput`). Without a
  run it panics at `runs[0]`, after the data section.
- The second assert's message says "only one char symbols"
  (src/compiler.rs:166), but its test `s.len() == 1` (src/compiler.rs:165)
  counts bytes, and it checks only the cells of the run, not the symbols
  of the instructions (`Compiler.OneByteCells`).
