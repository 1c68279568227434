/** Bytes, byte strings and the small renderings shared by every component:
    decimal and hexadecimal numbers, separator joins, repetition and the
    escaped form in which quoted text appears in diagnostics. */
module Text {

  /** One byte of a source buffer (Rust `u8`). */
  newtype byte = x: int | 0 <= x < 256

  type bytes = seq<byte>

  /** The character a byte stands for when token text is written out. */
  function Char(b: byte): char
  {
    b as int as char
  }

  /** A byte string written out as text, one character per byte. */
  function Chars(s: bytes): (r: string)
    ensures |r| == |s|
  {
    if s == [] then [] else [Char(s[0])] + Chars(s[1..])
  }

  /** The bytes of a text whose characters are all below 256, one byte
      per character: how a string literal of the source is stored. */
  function Bytes(s: string): (r: bytes)
    requires forall k :: 0 <= k < |s| ==> s[k] as int < 256
    ensures |r| == |s| && forall k :: 0 <= k < |s| ==> r[k] as int == s[k] as int
  {
    seq(|s|, k requires 0 <= k < |s| => s[k] as int as byte)
  }

  /** Writing the bytes of such a text out again gives the text back. */
  lemma {:induction false} CharsBytes(s: string)
    requires forall k :: 0 <= k < |s| ==> s[k] as int < 256
    ensures Chars(Bytes(s)) == s
  {
    if s != [] {
      assert Bytes(s)[1..] == Bytes(s[1..]);
      CharsBytes(s[1..]);
    }
  }

  /** Rendering distributes over concatenation. */
  lemma {:induction false} CharsAppend(a: bytes, b: bytes)
    ensures Chars(a + b) == Chars(a) + Chars(b)
    decreases |a|
  {
    if a != [] {
      assert (a + b)[0] == a[0] && (a + b)[1..] == a[1..] + b;
      CharsAppend(a[1..], b);
      assert Chars(a + b) == [Char(a[0])] + (Chars(a[1..]) + Chars(b));
    } else {
      assert a + b == b;
    }
  }

  predicate IsDigit(ch: char)
  {
    '0' <= ch <= '9'
  }

  predicate AllDigits(s: string)
  {
    forall i :: 0 <= i < |s| ==> IsDigit(s[i])
  }

  function DigitChar(d: nat): (ch: char)
    requires d < 10
    ensures IsDigit(ch) && ch as int - '0' as int == d
  {
    (d + '0' as int) as char
  }

  /** Decimal rendering of a natural number, as Rust's `{}` prints a usize:
      digits only, and no leading zero unless the number is zero. */
  function Dec(n: nat): (r: string)
    ensures |r| > 0 && AllDigits(r)
    ensures r[0] == '0' ==> n == 0
    decreases n
  {
    if n < 10 then [DigitChar(n)] else Dec(n / 10) + [DigitChar(n % 10)]
  }

  /** The value of a digit string read in base ten. */
  function DecValue(s: string): nat
    requires AllDigits(s)
  {
    if s == [] then 0 else DecValue(s[..|s| - 1]) * 10 + (s[|s| - 1] as int - '0' as int)
  }

  /** Reading a rendered number back gives the number. */
  lemma {:induction false} DecRoundTrip(n: nat)
    ensures DecValue(Dec(n)) == n
    decreases n
  {
    if n >= 10 {
      var r := Dec(n);
      assert r[..|r| - 1] == Dec(n / 10);
      DecRoundTrip(n / 10);
    }
  }

  /** Lower-case hexadecimal without leading zeros, as `{:x}` prints it. */
  function Hex(n: nat): (r: string)
    ensures |r| > 0
    decreases n
  {
    var d := "0123456789abcdef";
    if n < 16 then [d[n]] else Hex(n / 16) + [d[n % 16]]
  }

  /** `Join(xs, sep)`: the elements with `sep` between consecutive ones. */
  function Join(xs: seq<string>, sep: string): (r: string)
    ensures xs == [] ==> r == []
    ensures |xs| == 1 ==> r == xs[0]
  {
    if xs == [] then [] else if |xs| == 1 then xs[0] else xs[0] + sep + Join(xs[1..], sep)
  }

  /** Each element followed by `sep`, as a loop writes a list with a
      separator after every element. */
  function EachThen(xs: seq<string>, sep: string): string
  {
    if xs == [] then [] else EachThen(xs[..|xs| - 1], sep) + xs[|xs| - 1] + sep
  }

  /** Writing every element but the last with `sep` after it, and then
      the last, is joining them with `sep`. */
  lemma {:induction false} EachThenJoin(xs: seq<string>, y: string, sep: string)
    ensures EachThen(xs, sep) + y == Join(xs + [y], sep)
    decreases |xs|
  {
    var all := xs + [y];
    if xs == [] {
      assert all == [y];
    } else {
      var init := xs[..|xs| - 1];
      EachThenJoin(init, xs[|xs| - 1], sep);
      assert init + [xs[|xs| - 1]] == xs;
      JoinSnoc(xs, y, sep);
    }
  }

  /** Joining one more element at the back puts one more separator before it. */
  lemma {:induction false} JoinSnoc(xs: seq<string>, y: string, sep: string)
    requires xs != []
    ensures Join(xs + [y], sep) == Join(xs, sep) + sep + y
    decreases |xs|
  {
    if |xs| == 1 {
      assert (xs + [y])[1..] == [y];
    } else {
      assert (xs + [y])[1..] == xs[1..] + [y];
      JoinSnoc(xs[1..], y, sep);
    }
  }

  /** `n` spaces. */
  function Spaces(n: nat): (r: string)
    ensures |r| == n && forall i :: 0 <= i < n ==> r[i] == ' '
  {
    if n == 0 then [] else Spaces(n - 1) + " "
  }

  /** How Rust's `{:?}` escapes one character of ASCII text: the six
      C-style escapes, other control characters as `\u{..}`, everything
      else as itself. */
  function EscapeChar(ch: char): (r: string)
    ensures |r| > 0
  {
    if ch == '\0' then "\\0"
    else if ch == '\t' then "\\t"
    else if ch == '\r' then "\\r"
    else if ch == '\n' then "\\n"
    else if ch == '\\' then "\\\\"
    else if ch == '"' then "\\\""
    else if ch as int < 32 || ch as int == 127 then "\\u{" + Hex(ch as int) + "}"
    else [ch]
  }

  function EscapeAll(s: string): (r: string)
    ensures |r| >= |s|
  {
    if s == [] then [] else EscapeChar(s[0]) + EscapeAll(s[1..])
  }

  /** Rust's `{:?}` rendering of a string: quoted and escaped. */
  function DebugStr(s: string): (r: string)
    ensures |r| >= |s| + 2 && r[0] == '"' && r[|r| - 1] == '"'
  {
    "\"" + EscapeAll(s) + "\""
  }

  /** Text with no character that `{:?}` escapes is shown unchanged. */
  lemma {:induction false} EscapeAllPlain(s: string)
    requires forall i :: 0 <= i < |s| ==> ' ' <= s[i] && s[i] != '\\' && s[i] != '"' && s[i] as int != 127
    ensures EscapeAll(s) == s
  {
    if s != [] {
      EscapeAllPlain(s[1..]);
    }
  }
}
