/** The byte-level tokenizer of the Turing-machine language.

    The scanner is given twice: as functions over byte indices and an
    explicit cursor state `Pos` (`SpaceEnd`, `IndexFrom`, `RunEnd`,
    `QuoteEnd`, `Scan`), which the lemmas in LexerFacts and the parser's
    specification use, and as the class `Lexer`, whose fields `cur`, `bol`
    and `row` its methods update in place and whose every method is proved
    to move them exactly as the functions say. */
module Lexer {
  import opened Text

  const LineFeed: byte := 10
  const Tab: byte := 9
  const FormFeed: byte := 12
  const CarriageReturn: byte := 13
  const Space: byte := 32
  const Hash: byte := 35
  const Quote: byte := 39
  const Minus: byte := 45
  const Slash: byte := 47
  const Less: byte := 60
  const Greater: byte := 62
  const OpenBracket: byte := 91
  const CloseBracket: byte := 93

  datatype TokenKind = Symbol | LeftArrow | RightArrow | Cmd | Bra | Ket | NewLine

  /** `TokenKind::to_str`: the name a diagnostic uses for a token kind. */
  function KindStr(k: TokenKind): string
  {
    match k
    case Symbol => "Symbol"
    case LeftArrow => "<-"
    case RightArrow => "->"
    case Cmd => "Cmd"
    case Bra => "["
    case Ket => "]"
    case NewLine => "new line"
  }

  /** A source position: file label, zero-based row and column. */
  datatype Loc = Loc(file: string, row: nat, col: nat)

  /** `file:row:col`, printed one-based. */
  function LocText(l: Loc): string
  {
    l.file + ":" + Dec(l.row + 1) + ":" + Dec(l.col + 1)
  }

  datatype Token = Token(kind: TokenKind, text: bytes, loc: Loc)

  /** What `next_token` hands back: a token or one of three markers. */
  datatype TokenResult =
    | Eof(loc: Loc)
    | Unknown(text: bytes, loc: Loc)
    | UnclosedStr(loc: Loc)
    | Valid(tok: Token)

  function ResultLoc(t: TokenResult): Loc
  {
    match t
    case Eof(l) => l
    case Unknown(_, l) => l
    case UnclosedStr(l) => l
    case Valid(tok) => tok.loc
  }

  /** The fixed literals `->`, `<-`, `[`, `]` and the line feed, tried in this order. */
  const Literals: seq<(bytes, TokenKind)> :=
    [([Minus, Greater], RightArrow), ([Less, Minus], LeftArrow), ([OpenBracket], Bra),
     ([CloseBracket], Ket), ([LineFeed], NewLine)]

  /** Rust's `u8::is_ascii_whitespace`: space, tab, line feed, form feed, carriage return. */
  predicate IsAsciiWhitespace(b: byte)
  {
    b == Space || b == Tab || b == LineFeed || b == FormFeed || b == CarriageReturn
  }

  /** The bytes `trim_left` skips: ASCII whitespace except the line feed. */
  predicate IsHorizontalSpace(b: byte)
  {
    b == Tab || b == FormFeed || b == CarriageReturn || b == Space
  }

  /** `is_symbol`: a byte that may appear in a bare symbol. It is not one
      of the bytes of the literals (`-`, `>`, `<`, `[`, `]`, line feed),
      not ASCII whitespace and not a single quote; LexerFacts.IsSymbolFromLiterals
      shows that this list is exactly what the check against `Literals` excludes. */
  predicate IsSymbol(b: byte)
  {
    b != Minus && b != Greater && b != Less && b != OpenBracket && b != CloseBracket
    && !IsAsciiWhitespace(b) && b != Quote
  }

  /** `read_source` appends a line feed to every file, so the lexer always
      sees a non-empty buffer whose last byte is a line feed. */
  predicate WellTerminated(c: bytes)
  {
    |c| > 0 && c[|c| - 1] == LineFeed
  }

  /** The lexer's cursor state: cursor, beginning of the current line, row. */
  datatype Pos = Pos(cur: nat, bol: nat, row: nat)

  predicate Inside(c: bytes, p: Pos)
  {
    p.bol <= p.cur <= |c|
  }

  /** Consuming one byte, as one round of `skip_n`: a line feed starts a
      new row just after it. */
  function Advance(c: bytes, p: Pos): (q: Pos)
    requires p.cur < |c|
    ensures q.cur == p.cur + 1
    ensures c[p.cur] != LineFeed ==> q.bol == p.bol && q.row == p.row
    ensures c[p.cur] == LineFeed ==> q.bol == q.cur && q.row == p.row + 1
    ensures Inside(c, p) ==> Inside(c, q)
  {
    if c[p.cur] == LineFeed then Pos(p.cur + 1, p.cur + 1, p.row + 1) else Pos(p.cur + 1, p.bol, p.row)
  }

  /** The state reached by consuming the first `k` bytes from the start. */
  function PosAt(c: bytes, k: nat): (p: Pos)
    requires k <= |c|
    ensures p.cur == k && Inside(c, p)
  {
    if k == 0 then Pos(0, 0, 0) else Advance(c, PosAt(c, k - 1))
  }

  /** The state is the one reached from the start of the buffer. */
  predicate Tracks(c: bytes, p: Pos)
  {
    p.cur <= |c| && p == PosAt(c, p.cur)
  }

  /** `skip_n(n)`. */
  function Skipped(c: bytes, p: Pos, n: nat): (q: Pos)
    requires p.cur + n <= |c|
    ensures q.cur == p.cur + n
    ensures Inside(c, p) ==> Inside(c, q)
    decreases n
  {
    if n == 0 then p else Skipped(c, Advance(c, p), n - 1)
  }

  /** Where `trim_left` stops: the first byte from `k` on that is not
      horizontal whitespace. */
  function SpaceEnd(c: bytes, k: nat): (j: nat)
    requires k <= |c|
    ensures k <= j <= |c| && (j == |c| || !IsHorizontalSpace(c[j]))
    decreases |c| - k
  {
    if k < |c| && IsHorizontalSpace(c[k]) then SpaceEnd(c, k + 1) else k
  }

  /** Where `skip_until(b)` stops: the first `b` from `k` on, or the end. */
  function IndexFrom(c: bytes, k: nat, b: byte): (j: nat)
    requires k <= |c|
    ensures k <= j <= |c| && (j == |c| || c[j] == b)
    ensures k < |c| && c[|c| - 1] == b ==> j < |c|
    decreases |c| - k
  {
    if k < |c| && c[k] != b then IndexFrom(c, k + 1, b) else k
  }

  /** Where the loop of `extract_token` stops: the first byte from `k` on
      that is not a symbol byte. */
  function RunEnd(c: bytes, k: nat): (j: nat)
    requires k <= |c|
    ensures k <= j <= |c| && (j == |c| || !IsSymbol(c[j]))
    decreases |c| - k
  {
    if k < |c| && IsSymbol(c[k]) then RunEnd(c, k + 1) else k
  }

  /** Where the loop of `extract_string_token` stops when started on the
      opening quote at `k`: the first line feed or quote after it. The
      line feed at the end of the buffer keeps every read in bounds. */
  function QuoteEnd(c: bytes, k: nat): (j: nat)
    requires WellTerminated(c) && k < |c| && c[k] != LineFeed
    ensures k < j < |c| && (c[j] == LineFeed || c[j] == Quote)
    decreases |c| - k
  {
    if c[k + 1] == LineFeed || c[k + 1] == Quote then k + 1 else QuoteEnd(c, k + 1)
  }

  /** `starts_with`: the remaining bytes and `s` agree on their common
      length, so a remaining input shorter than `s` can still match. */
  predicate StartsWithAt(c: bytes, k: nat, s: bytes)
    requires k <= |c|
    decreases |s|
  {
    |s| == 0 || k == |c| || (c[k] == s[0] && StartsWithAt(c, k + 1, s[1..]))
  }

  /** The bytes `c[i..j]`: the text of a token, a view into the buffer. */
  function Slice(c: bytes, i: nat, j: nat): (r: bytes)
    requires i <= j <= |c|
    ensures |r| == j - i && forall k :: 0 <= k < j - i ==> r[k] == c[i + k]
  {
    c[i..j]
  }

  /** In a well-terminated buffer, a literal that `starts_with` accepts at
      an unconsumed byte lies wholly inside the buffer. */
  lemma LiteralFits(c: bytes, k: nat, i: nat)
    requires WellTerminated(c) && k < |c| && i < |Literals|
    requires StartsWithAt(c, k, Literals[i].0)
    ensures k + |Literals[i].0| <= |c|
  {
    var lit := Literals[i].0;
    if |lit| == 2 {
      assert k != |c| - 1;
    }
  }

  /** The literal loop of `next_token` from literal `i` on: the index of
      the first literal that `starts_with` accepts at byte `k`, or
      `|Literals|` when there is none. */
  function FirstLiteral(c: bytes, k: nat, i: nat): (j: nat)
    requires k <= |c| && i <= |Literals|
    ensures i <= j <= |Literals|
    ensures j < |Literals| ==> StartsWithAt(c, k, Literals[j].0)
    decreases |Literals| - i
  {
    if i == |Literals| || StartsWithAt(c, k, Literals[i].0) then i else FirstLiteral(c, k, i + 1)
  }

  /** The token of the first literal that matches, or the single-byte
      `Unknown` marker when none does. */
  function ScanLiteral(c: bytes, p: Pos, start: nat, loc: Loc): (r: (TokenResult, Pos))
    requires WellTerminated(c) && Inside(c, p) && start <= p.cur < |c|
    ensures p.cur < r.1.cur <= |c| && Inside(c, r.1) && ResultLoc(r.0) == loc
  {
    var i := FirstLiteral(c, p.cur, 0);
    if i == |Literals| then
      (Unknown(Slice(c, start, p.cur + 1), loc), Advance(c, p))
    else
      LiteralFits(c, p.cur, i);
      var e := Skipped(c, p, |Literals[i].0|);
      (Valid(Token(Literals[i].1, Slice(c, start, e.cur), loc)), e)
  }

  /** The branches of `next_token` that follow the comment skip: `s` is
      the state on the byte that decides the token, `start` where the token
      text begins. None of the bytes these branches pass over before the
      last is a line feed, so only that last step can start a new row.
      A `#` is itself a symbol byte, so the `Cmd` branch and the `Symbol`
      branch of the source scan the same run and differ only in the kind. */
  function Dispatch(c: bytes, s: Pos, start: nat, loc: Loc): (r: (TokenResult, Pos))
    requires WellTerminated(c) && Inside(c, s) && start <= s.cur < |c|
    ensures Inside(c, r.1) && s.cur < r.1.cur && ResultLoc(r.0) == loc && !r.0.Eof?
  {
    if c[s.cur] == Quote then
      var j := QuoteEnd(c, s.cur);
      if c[j] == Quote then (Valid(Token(Symbol, Slice(c, start + 1, j), loc)), Pos(j + 1, s.bol, s.row))
      else (UnclosedStr(loc), Pos(j, s.bol, s.row))
    else if IsSymbol(c[s.cur]) then
      var j := RunEnd(c, s.cur + 1);
      (Valid(Token(if c[s.cur] == Hash then Cmd else Symbol, Slice(c, start, j), loc)), Pos(j, s.bol, s.row))
    else
      ScanLiteral(c, s, start, loc)
  }

  /** `next_token`: the result and the state after it. Horizontal
      whitespace and a comment's bytes are never line feeds, so skipping
      them keeps the row and its start. */
  function Scan(file: string, c: bytes, p: Pos): (r: (TokenResult, Pos))
    requires WellTerminated(c) && Inside(c, p)
    ensures Inside(c, r.1) && p.cur <= r.1.cur
    ensures !r.0.Eof? ==> p.cur < r.1.cur
  {
    var t := SpaceEnd(c, p.cur);
    var loc := Loc(file, p.row, t - p.bol);
    if t == |c| then (Eof(loc), Pos(t, p.bol, p.row))
    else
      var s := if StartsWithAt(c, t, [Slash, Slash]) then IndexFrom(c, t, LineFeed) else t;
      Dispatch(c, Pos(s, p.bol, p.row), t, loc)
  }

  /** The tokenizer proper; `content` and `file` never change. */
  class Lexer {
    const content: bytes
    const file: string
    var cur: nat
    var bol: nat
    var row: nat

    function State(): Pos
      reads this
    {
      Pos(cur, bol, row)
    }

    /** The buffer ends in a line feed and `bol` and `row` are the ones
        the cursor implies: `row` counts the line feeds before `cur` and
        `bol` is just past the last of them. */
    ghost predicate Valid()
      reads this
    {
      WellTerminated(content) && Tracks(content, State())
    }

    constructor (content: bytes, file: string)
      requires WellTerminated(content)
      ensures Valid() && this.content == content && this.file == file
      ensures State() == Pos(0, 0, 0)
    {
      this.content := content;
      this.file := file;
      cur, bol, row := 0, 0, 0;
    }

    predicate Exhausted()
      reads this
    {
      |content| <= cur
    }

    predicate StartsWith(s: bytes)
      reads this
      requires cur <= |content|
    {
      StartsWithAt(content, cur, s)
    }

    function CurrentLoc(): Loc
      reads this
      requires bol <= cur
    {
      Loc(file, row, cur - bol)
    }

    /** `skip_n`, whose assertion demands an unconsumed byte. */
    method SkipN(n: nat)
      requires Valid() && cur < |content| && cur + n <= |content|
      modifies this
      ensures Valid() && State() == Skipped(content, old(State()), n)
    {
      for i := 0 to n
        invariant Valid() && cur == old(cur) + i
        invariant Skipped(content, old(State()), n) == Skipped(content, State(), n - i)
      {
        var ch := content[cur];
        cur := cur + 1;
        if ch == LineFeed {
          bol := cur;
          row := row + 1;
        }
      }
    }

    method TrimLeft()
      requires Valid()
      modifies this
      ensures Valid() && State() == Pos(SpaceEnd(content, old(cur)), old(bol), old(row))
    {
      while !Exhausted() && IsHorizontalSpace(content[cur])
        invariant Valid() && old(cur) <= cur <= |content| && bol == old(bol) && row == old(row)
        invariant SpaceEnd(content, old(cur)) == SpaceEnd(content, cur)
        decreases |content| - cur
      {
        SkipN(1);
      }
    }

    /** `skip_until(b)`; the state after it is the one the buffer implies
        at the stopping index, and a stop at a line feed keeps the row. */
    method SkipUntil(b: byte)
      requires Valid()
      modifies this
      ensures Valid() && cur == IndexFrom(content, old(cur), b)
      ensures b == LineFeed ==> bol == old(bol) && row == old(row)
    {
      while !Exhausted() && content[cur] != b
        invariant Valid() && old(cur) <= cur <= |content|
        invariant b == LineFeed ==> bol == old(bol) && row == old(row)
        invariant IndexFrom(content, old(cur), b) == IndexFrom(content, cur, b)
        decreases |content| - cur
      {
        SkipN(1);
      }
    }

    /** Both callers pass `is_symbol` as the predicate, so it is fixed here. */
    method ExtractToken(kind: TokenKind, start: nat, loc: Loc) returns (t: TokenResult)
      requires Valid() && start <= cur < |content| && content[cur] != LineFeed
      modifies this
      ensures Valid() && State() == Pos(RunEnd(content, old(cur) + 1), old(bol), old(row))
      ensures t == TokenResult.Valid(Token(kind, Slice(content, start, cur), loc))
    {
      SkipN(1);
      while !Exhausted() && IsSymbol(content[cur])
        invariant Valid() && old(cur) < cur <= |content| && bol == old(bol) && row == old(row)
        invariant RunEnd(content, old(cur) + 1) == RunEnd(content, cur)
        decreases |content| - cur
      {
        SkipN(1);
      }
      t := TokenResult.Valid(Token(kind, Slice(content, start, cur), loc));
    }

    /** Started on the opening quote; the token text lies between the quotes. */
    method ExtractStringToken(start: nat, loc: Loc) returns (t: TokenResult)
      requires Valid() && start <= cur < |content| && content[cur] == Quote
      modifies this
      ensures Valid()
      ensures content[QuoteEnd(content, old(cur))] == Quote ==>
        t == TokenResult.Valid(Token(Symbol, Slice(content, start + 1, QuoteEnd(content, old(cur))), loc))
        && State() == Pos(QuoteEnd(content, old(cur)) + 1, old(bol), old(row))
      ensures content[QuoteEnd(content, old(cur))] != Quote ==>
        t == UnclosedStr(loc) && State() == Pos(QuoteEnd(content, old(cur)), old(bol), old(row))
    {
      while true
        invariant Valid() && old(cur) <= cur < |content| && content[cur] != LineFeed
        invariant bol == old(bol) && row == old(row)
        invariant cur == old(cur) || content[cur] != Quote
        invariant QuoteEnd(content, old(cur)) == QuoteEnd(content, cur)
        decreases |content| - cur
      {
        SkipN(1);
        if content[cur] == LineFeed || Exhausted() {
          return UnclosedStr(loc);
        }
        if content[cur] == Quote {
          break;
        }
      }
      t := TokenResult.Valid(Token(Symbol, Slice(content, start + 1, cur), loc));
      SkipN(1);
    }

    method NextToken() returns (t: TokenResult)
      requires Valid()
      modifies this
      ensures Valid() && (t, State()) == Scan(file, content, old(State()))
    {
      TrimLeft();
      var start := cur;
      var loc := CurrentLoc();
      if Exhausted() {
        return Eof(loc);
      }
      if StartsWith([Slash, Slash]) {
        SkipUntil(LineFeed);
      }
      t := DispatchToken(start, loc);
    }

    /** The part of `next_token` after the comment skip. */
    method DispatchToken(start: nat, loc: Loc) returns (t: TokenResult)
      requires Valid() && start <= cur < |content|
      modifies this
      ensures Valid() && (t, State()) == Dispatch(content, old(State()), start, loc)
    {
      if content[cur] == Quote {
        t := ExtractStringToken(start, loc);
        return;
      }
      if content[cur] == Hash {
        t := ExtractToken(Cmd, start, loc);
        return;
      }
      if IsSymbol(content[cur]) {
        t := ExtractToken(Symbol, start, loc);
        return;
      }
      t := LiteralToken(start, loc);
    }

    /** The literal loop of `next_token` and its `Unknown` fallback. */
    method LiteralToken(start: nat, loc: Loc) returns (t: TokenResult)
      requires Valid() && start <= cur < |content|
      modifies this
      ensures Valid() && (t, State()) == ScanLiteral(content, old(State()), start, loc)
    {
      for i := 0 to |Literals|
        invariant Valid() && State() == old(State())
        invariant FirstLiteral(content, cur, 0) == FirstLiteral(content, cur, i)
      {
        var (lit, kind) := Literals[i];
        if StartsWith(lit) {
          LiteralFits(content, cur, i);
          SkipN(|lit|);
          return TokenResult.Valid(Token(kind, Slice(content, start, cur), loc));
        }
      }
      SkipN(1);
      t := Unknown(Slice(content, start, cur), loc);
    }

    /** `peek_token`: save the three fields, scan, restore them. */
    method PeekToken() returns (t: TokenResult)
      requires Valid()
      modifies this
      ensures Valid() && State() == old(State())
      ensures t == Scan(file, content, State()).0
    {
      var saved := (cur, bol, row);
      t := NextToken();
      cur, bol, row := saved.0, saved.1, saved.2;
    }
  }

  /** A peek followed by a scan: both see the same result, and only the
      scan moves the cursor. */
  method PeekThenNext(lx: Lexer) returns (peeked: TokenResult, next: TokenResult)
    requires lx.Valid()
    modifies lx
    ensures lx.Valid() && peeked == next
    ensures (next, lx.State()) == Scan(lx.file, lx.content, old(lx.State()))
  {
    peeked := lx.PeekToken();
    next := lx.NextToken();
  }
}
