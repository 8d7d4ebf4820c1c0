/**
 The two encodings the canonicalizer relies on: UTF-8 for the output bytes and UTF-16-BE for
 the member sort key. A Python `str` without lone surrogates is a Dafny `string`, since a
 `char` is exactly a Unicode scalar value.
 */
module Encodings {
  import opened Wrappers

  type Byte = b: int | 0 <= b < 256

  // ----- UTF-8 ------------------------------------------------------------------------

  function Utf8Char(c: char): (r: seq<Byte>)
    ensures 1 <= |r| <= 4
  {
    var n := c as int;
    if n < 0x80 then [n]
    else if n < 0x800 then [0xC0 + n / 0x40, 0x80 + n % 0x40]
    else if n < 0x1_0000 then [0xE0 + n / 0x1000, 0x80 + n / 0x40 % 0x40, 0x80 + n % 0x40]
    else [0xF0 + n / 0x4_0000, 0x80 + n / 0x1000 % 0x40, 0x80 + n / 0x40 % 0x40, 0x80 + n % 0x40]
  }

  /** Lead byte and continuation bytes of the shortest form, as RFC 3629 lays them out (section 3). */
  lemma Utf8Layout(c: char)
    ensures var n, r := c as int, Utf8Char(c);
            && |r| == (if n < 0x80 then 1 else if n < 0x800 then 2 else if n < 0x1_0000 then 3 else 4)
            && LeadLength(r[0]) == |r| && DecodeChar(r) == Some(c)
            && forall i | 1 <= i < |r| :: 0x80 <= r[i] < 0xC0
  {
    DecodeUtf8Char(c);
  }

  function Utf8(s: string): seq<Byte>
  {
    if s == "" then [] else Utf8Char(s[0]) + Utf8(s[1..])
  }

  function Scalar(n: int): Option<char>
  {
    if 0 <= n < 0xD800 || 0xE000 <= n < 0x11_0000 then Some(n as char) else None
  }

  /** The number of bytes the character starting with this lead byte takes, 0 for no lead byte. */
  function LeadLength(b: Byte): nat
  {
    if b < 0x80 then 1
    else if b < 0xC0 then 0
    else if b < 0xE0 then 2
    else if b < 0xF0 then 3
    else 4
  }

  function DecodeChar(b: seq<Byte>): Option<char>
    requires b != [] && |b| == LeadLength(b[0])
  {
    var b: seq<int> := b;
    match |b|
    case 1 => Scalar(b[0])
    case 2 => Scalar((b[0] - 0xC0) * 0x40 + (b[1] - 0x80))
    case 3 => Scalar((b[0] - 0xE0) * 0x1000 + (b[1] - 0x80) * 0x40 + (b[2] - 0x80))
    case _ => Scalar((b[0] - 0xF0) * 0x4_0000 + (b[1] - 0x80) * 0x1000 + (b[2] - 0x80) * 0x40 + (b[3] - 0x80))
  }

  function DecodeUtf8(b: seq<Byte>): Option<string>
    decreases |b|
  {
    if b == [] then Some("")
    else
      var n := LeadLength(b[0]);
      if n == 0 || n > |b| then None
      else
        var c :- DecodeChar(b[..n]);
        var rest :- DecodeUtf8(b[n..]);
        Some([c] + rest)
  }

  lemma DecodeUtf8Char(c: char)
    ensures LeadLength(Utf8Char(c)[0]) == |Utf8Char(c)|
    ensures DecodeChar(Utf8Char(c)) == Some(c)
  {
    var n := c as int;
    if 0x800 <= n < 0x1_0000 {
      assert n / 0x1000 == n / 0x40 / 0x40;
    } else if 0x1_0000 <= n {
      assert n / 0x1000 == n / 0x40 / 0x40 && n / 0x4_0000 == n / 0x1000 / 0x40;
    }
  }

  /** Decoding undoes encoding, so UTF-8 loses nothing. */
  lemma {:induction false} Utf8RoundTrip(s: string)
    ensures DecodeUtf8(Utf8(s)) == Some(s)
  {
    if s != "" {
      var head, tail := Utf8Char(s[0]), Utf8(s[1..]);
      DecodeUtf8Char(s[0]);
      Utf8RoundTrip(s[1..]);
      assert (head + tail)[..|head|] == head && (head + tail)[|head|..] == tail;
      assert [s[0]] + s[1..] == s;
    }
  }

  lemma Utf8Injective(s: string, t: string)
    requires Utf8(s) == Utf8(t)
    ensures s == t
  {
    Utf8RoundTrip(s);
    Utf8RoundTrip(t);
  }

  lemma Associates(a: seq<Byte>, b: seq<Byte>, c: seq<Byte>)
    ensures a + (b + c) == a + b + c
  {
  }

  lemma {:induction false} Utf8Concat(s: string, t: string)
    ensures Utf8(s + t) == Utf8(s) + Utf8(t)
  {
    if s == "" {
      assert s + t == t;
    } else {
      Utf8Concat(s[1..], t);
      assert (s + t)[0] == s[0] && (s + t)[1..] == s[1..] + t;
      Associates(Utf8Char(s[0]), Utf8(s[1..]), Utf8(t));
    }
  }

  // ----- UTF-16 -----------------------------------------------------------------------

  type CodeUnit = u: int | 0 <= u < 0x1_0000

  /** The code point of a high and a low surrogate. */
  function SurrogatePair(high: int, low: int): int
  {
    0x1_0000 + (high - 0xD800) * 0x400 + (low - 0xDC00)
  }

  /** One unit, or a high and a low surrogate for the twenty bits above the basic plane. */
  function Utf16Char(c: char): (r: seq<CodeUnit>)
    ensures |r| == if c as int < 0x1_0000 then 1 else 2
    ensures |r| == 1 ==> r[0] == c as int
    ensures |r| == 2 ==> 0xD800 <= r[0] < 0xDC00 <= r[1] < 0xE000 && SurrogatePair(r[0], r[1]) == c as int
  {
    var n := c as int;
    if n < 0x1_0000 then [n]
    else [0xD800 + (n - 0x1_0000) / 0x400, 0xDC00 + (n - 0x1_0000) % 0x400]
  }

  function Utf16(s: string): seq<CodeUnit>
  {
    if s == "" then [] else Utf16Char(s[0]) + Utf16(s[1..])
  }

  function BigEndian(u: seq<CodeUnit>): seq<Byte>
  {
    if u == [] then [] else [u[0] / 0x100, u[0] % 0x100] + BigEndian(u[1..])
  }

  lemma {:induction false} Utf16Injective(s: string, t: string)
    requires Utf16(s) == Utf16(t)
    ensures s == t
  {
    if s == "" || t == "" {
      assert s == t;
    } else {
      var a, b := Utf16Char(s[0]), Utf16Char(t[0]);
      var u := Utf16(s);
      assert u[0] == a[0] && u[0] == b[0];
      // A lead unit in the surrogate range starts a pair, and no other unit does.
      assert |a| == |b|;
      assert u[..|a|] == a && u[..|b|] == b;
      assert s[0] == t[0];
      assert u[|a|..] == Utf16(s[1..]) && u[|b|..] == Utf16(t[1..]);
      Utf16Injective(s[1..], t[1..]);
      assert s == [s[0]] + s[1..] && t == [t[0]] + t[1..];
    }
  }
}
