/** Rust strings are UTF-8: `str::as_bytes` gives the encoding of a string,
    and `fs::read_to_string` fails on bytes that are not well-formed UTF-8. */
module Text {
  import opened Base

  /** The UTF-8 encoding of one Unicode scalar value (RFC 3629, section 3). */
  function EncodeChar(c: char): (b: seq<byte>)
    ensures 1 <= |b| <= 4
    ensures (|b| == 1) == (c as int < 0x80)
  {
    var n := c as int;
    if n < 0x80 then [n as byte]
    else if n < 0x800 then
      [(0xC0 + n / 0x40) as byte, (0x80 + n % 0x40) as byte]
    else if n < 0x1_0000 then
      [(0xE0 + n / 0x1000) as byte, (0x80 + n / 0x40 % 0x40) as byte, (0x80 + n % 0x40) as byte]
    else
      [(0xF0 + n / 0x4_0000) as byte, (0x80 + n / 0x1000 % 0x40) as byte,
       (0x80 + n / 0x40 % 0x40) as byte, (0x80 + n % 0x40) as byte]
  }

  /** `str::as_bytes`: the UTF-8 encoding of a whole string. */
  function Utf8(s: string): (b: seq<byte>)
    ensures |s| <= |b| <= 4 * |s|
  {
    if |s| == 0 then [] else EncodeChar(s[0]) + Utf8(s[1..])
  }

  predicate IsContinuation(x: byte) {
    0x80 <= x <= 0xBF
  }

  /** The length of the well-formed encoded scalar value at the start of `b`,
      or 0 when `b` does not start with one (the table of well-formed byte
      sequences in RFC 3629, section 4). */
  function LeadingScalarWidth(b: seq<byte>): (n: nat)
    ensures n <= |b| && n <= 4
  {
    if |b| == 0 then 0
    else if b[0] < 0x80 then 1
    else if 0xC2 <= b[0] <= 0xDF && |b| >= 2 && IsContinuation(b[1]) then 2
    else if b[0] == 0xE0 && |b| >= 3 && 0xA0 <= b[1] <= 0xBF && IsContinuation(b[2]) then 3
    else if (0xE1 <= b[0] <= 0xEC || 0xEE <= b[0] <= 0xEF) && |b| >= 3
            && IsContinuation(b[1]) && IsContinuation(b[2]) then 3
    else if b[0] == 0xED && |b| >= 3 && 0x80 <= b[1] <= 0x9F && IsContinuation(b[2]) then 3
    else if b[0] == 0xF0 && |b| >= 4 && 0x90 <= b[1] <= 0xBF
            && IsContinuation(b[2]) && IsContinuation(b[3]) then 4
    else if 0xF1 <= b[0] <= 0xF3 && |b| >= 4
            && IsContinuation(b[1]) && IsContinuation(b[2]) && IsContinuation(b[3]) then 4
    else if b[0] == 0xF4 && |b| >= 4 && 0x80 <= b[1] <= 0x8F
            && IsContinuation(b[2]) && IsContinuation(b[3]) then 4
    else 0
  }

  /** The check `read_to_string` makes: the bytes split into well-formed
      encoded scalar values. */
  predicate IsUtf8(b: seq<byte>)
    decreases |b|
  {
    if |b| == 0 then true
    else
      var n := LeadingScalarWidth(b);
      n > 0 && IsUtf8(b[n..])
  }

  /** The bytes of one encoded character are recognised as exactly one
      well-formed scalar value, whatever follows them. */
  lemma EncodeCharWellFormed(c: char, rest: seq<byte>)
    ensures LeadingScalarWidth(EncodeChar(c) + rest) == |EncodeChar(c)|
  {
    var n := c as int;
    var b := EncodeChar(c) + rest;
    if n < 0x80 {
    } else if n < 0x800 {
      assert 2 <= n / 0x40 < 0x20;
    } else if n < 0x1_0000 {
      assert 0 <= n / 0x40 % 0x40 < 0x40;
      if n < 0x1000 {
        assert n / 0x40 % 0x40 == n / 0x40;
        assert b[1] >= 0xA0;
      } else if 0xD000 <= n < 0xE000 {
        assert 0xD000 <= n < 0xD800;
        assert 0x340 <= n / 0x40 < 0x360;
        assert n / 0x40 % 0x40 < 0x20;
      }
    } else {
      assert n < 0x11_0000;
      assert 0 <= n / 0x1000 % 0x40 < 0x40;
      if n < 0x4_0000 {
        assert n / 0x1000 % 0x40 == n / 0x1000;
        assert b[1] >= 0x90;
      } else if n >= 0x10_0000 {
        assert n / 0x1000 % 0x40 == n / 0x1000 - 0x100;
        assert b[1] <= 0x8F;
      }
    }
  }

  /** Every encoded string passes the `read_to_string` check. */
  lemma {:induction false} Utf8IsWellFormed(s: string)
    ensures IsUtf8(Utf8(s))
    decreases |s|
  {
    if |s| > 0 {
      var e := EncodeChar(s[0]);
      Utf8IsWellFormed(s[1..]);
      EncodeCharWellFormed(s[0], Utf8(s[1..]));
      assert (e + Utf8(s[1..]))[|e|..] == Utf8(s[1..]);
    }
  }
}
