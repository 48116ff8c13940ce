/**
 * The C library text conversions the two RIOT shells rely on: `atoi`,
 * `strtoul(s, NULL, 0)`, the implicit conversions to `uint8_t`, `uint16_t`
 * and `uint32_t`, and the hexadecimal byte formatting of RIOT's `fmt`
 * module. Integers are unbounded here; every narrowing the C code performs
 * is written out as a reduction modulo 2^N.
 */
module CText {

  type Uint8 = x: int | 0 <= x < 0x100
  type Uint16 = x: int | 0 <= x < 0x1_0000
  type Uint32 = x: int | 0 <= x < 0x1_0000_0000

  /** ULONG_MAX on the 32-bit boards the shells run on. */
  const UlongMax: Uint32 := 0xFFFF_FFFF

  /** Conversion of an `int` to `uint8_t`: the value in range congruent to `x`. */
  function ToUint8(x: int): (r: Uint8)
    ensures (x - r) % 0x100 == 0
    ensures 0 <= x < 0x100 ==> r == x
  {
    x % 0x100
  }

  /** Conversion of an `int` to `uint16_t`. */
  function ToUint16(x: int): (r: Uint16)
    ensures (x - r) % 0x1_0000 == 0
    ensures 0 <= x < 0x1_0000 ==> r == x
  {
    x % 0x1_0000
  }

  /** Conversion of an `int` to `uint32_t`. */
  function ToUint32(x: int): (r: Uint32)
    ensures (x - r) % 0x1_0000_0000 == 0
    ensures 0 <= x < 0x1_0000_0000 ==> r == x
  {
    x % 0x1_0000_0000
  }

  /** The characters `isspace` accepts in the C locale. */
  predicate IsSpace(c: char) {
    c == ' ' || c == '\t' || c == '\n' || c == '\r' || c == '\U{000B}' || c == '\U{000C}'
  }

  /** Drops the leading white space, as `atoi` and `strtoul` do first. */
  function SkipSpaces(s: string): (t: string)
    ensures |t| <= |s| && t == s[|s| - |t|..]
    ensures forall i :: 0 <= i < |s| - |t| ==> IsSpace(s[i])
    ensures |t| > 0 ==> !IsSpace(t[0])
  {
    if |s| > 0 && IsSpace(s[0]) then SkipSpaces(s[1..]) else s
  }

  predicate IsHexDigit(c: char) {
    ('0' <= c <= '9') || ('a' <= c <= 'f') || ('A' <= c <= 'F')
  }

  /** The value of a hexadecimal digit, either case. */
  function HexValue(c: char): (v: nat)
    requires IsHexDigit(c)
    ensures v < 16
  {
    if '0' <= c <= '9' then c as int - '0' as int
    else if 'a' <= c <= 'f' then c as int - 'a' as int + 10
    else c as int - 'A' as int + 10
  }

  /** A digit of the given base (8, 10 or 16). */
  predicate IsDigitIn(c: char, base: nat) {
    IsHexDigit(c) && HexValue(c) < base
  }

  predicate AllDigitsIn(d: string, base: nat) {
    forall i :: 0 <= i < |d| ==> IsDigitIn(d[i], base)
  }

  /** Length of the longest prefix of `s` made of digits of `base`. */
  function DigitRun(s: string, base: nat): (n: nat)
    ensures n <= |s|
    ensures AllDigitsIn(s[..n], base)
    ensures n < |s| ==> !IsDigitIn(s[n], base)
  {
    if |s| > 0 && IsDigitIn(s[0], base) then
      var n := 1 + DigitRun(s[1..], base);
      assert s[..n] == [s[0]] + s[1..][..n - 1];
      n
    else 0
  }

  /** The number a string of digits denotes in positional notation. */
  function RunValue(d: string, base: nat): nat
    requires AllDigitsIn(d, base)
  {
    if |d| == 0 then 0 else base * RunValue(d[..|d| - 1], base) + HexValue(d[|d| - 1])
  }

  /** The number the leading digits of `s` denote; 0 when `s` starts with no digit. */
  function LeadingValue(s: string, base: nat): nat {
    var n := DigitRun(s, base);
    RunValue(s[..n], base)
  }

  /**
   * `atoi`: white space, an optional sign, then decimal digits up to the
   * first non-digit; 0 when no digit follows. C leaves an out-of-range
   * result undefined; the model keeps the mathematical value.
   */
  function Atoi(s: string): int {
    var t := SkipSpaces(s);
    if |t| > 0 && t[0] == '-' then 0 - LeadingValue(t[1..], 10) as int
    else if |t| > 0 && t[0] == '+' then LeadingValue(t[1..], 10)
    else LeadingValue(t, 10)
  }

  /**
   * `strtoul(s, NULL, 0)`: the base follows from the prefix (`0x` for 16, a
   * leading `0` for 8, otherwise 10); a magnitude above ULONG_MAX saturates,
   * and a minus sign negates modulo 2^32.
   */
  function StrToUl(s: string): (r: Uint32)
  {
    var t := SkipSpaces(s);
    var negative := |t| > 0 && t[0] == '-';
    var u := if |t| > 0 && (t[0] == '-' || t[0] == '+') then t[1..] else t;
    var magnitude :=
      if |u| >= 3 && u[0] == '0' && (u[1] == 'x' || u[1] == 'X') && IsHexDigit(u[2]) then LeadingValue(u[2..], 16)
      else if |u| >= 1 && u[0] == '0' then LeadingValue(u, 8)
      else LeadingValue(u, 10);
    if magnitude > UlongMax then UlongMax
    else if negative then (0x1_0000_0000 - magnitude) % 0x1_0000_0000
    else magnitude
  }

  /** `atoi` of text that starts with neither white space, a sign nor a digit is 0. */
  lemma AtoiOfWord(s: string)
    requires |s| > 0 && !IsSpace(s[0]) && s[0] !in "+-" && !IsHexDigit(s[0])
    ensures Atoi(s) == 0
  {
    assert SkipSpaces(s) == s;
    assert !IsDigitIn(s[0], 10);
    assert DigitRun(s, 10) == 0;
  }

  /** Text that starts with neither white space, a sign nor a digit converts to 0. */
  lemma StrToUlOfWord(s: string)
    requires |s| > 0 && !IsSpace(s[0]) && s[0] !in "+-" && !IsHexDigit(s[0])
    ensures StrToUl(s) == 0
  {
    assert SkipSpaces(s) == s;
    assert !IsDigitIn(s[0], 10);
    assert DigitRun(s, 10) == 0;
  }

  /** The decimal text of a natural number, as `printf("%d")` writes it. */
  function Decimal(n: nat): (d: string)
    ensures |d| > 0
    ensures AllDigitsIn(d, 10)
  {
    var last := ['0' + (n % 10) as char];
    assert HexValue(last[0]) == n % 10;
    if n < 10 then last else Decimal(n / 10) + last
  }

  lemma {:induction false} RunValueOfDecimal(n: nat)
    ensures RunValue(Decimal(n), 10) == n
    decreases n
  {
    var d := Decimal(n);
    var c := '0' + (n % 10) as char;
    assert HexValue(c) == n % 10;
    if n >= 10 {
      assert d == Decimal(n / 10) + [c];
      assert d[..|d| - 1] == Decimal(n / 10);
      RunValueOfDecimal(n / 10);
    }
  }

  lemma LeadingValueOfDigits(d: string, base: nat)
    requires AllDigitsIn(d, base)
    ensures LeadingValue(d, base) == RunValue(d, base)
  {
    var n := DigitRun(d, base);
    assert n == |d|;
    assert d[..n] == d;
  }

  /** `atoi` reads back every decimal text `printf` writes, with or without a minus sign. */
  lemma AtoiReadsDecimal(n: nat)
    ensures Atoi(Decimal(n)) == n
    ensures Atoi("-" + Decimal(n)) == -(n as int)
  {
    var d := Decimal(n);
    assert !IsSpace(d[0]) && d[0] != '-' && d[0] != '+' by {
      assert IsDigitIn(d[0], 10);
    }
    RunValueOfDecimal(n);
    LeadingValueOfDigits(d, 10);
    var m := "-" + d;
    assert m[1..] == d;
  }

  // ---------------------------------------------------------------------
  // Hexadecimal keys (RIOT `fmt_hex_bytes` and `fmt_bytes_hex`)

  predicate IsHexText(h: string) {
    forall i :: 0 <= i < |h| ==> IsHexDigit(h[i])
  }

  /** The value `fmt_hex_bytes` gives a character; characters that are not hex digits read as 0. */
  function Nibble(c: char): (v: nat)
    ensures v < 16
  {
    if IsHexDigit(c) then HexValue(c) else 0
  }

  /** `fmt_hex_bytes`: each pair of characters becomes one byte, high nibble first. */
  function HexToBytes(h: string): (b: seq<Uint8>)
    requires |h| % 2 == 0
    ensures |b| == |h| / 2
  {
    if |h| == 0 then [] else [16 * Nibble(h[0]) + Nibble(h[1])] + HexToBytes(h[2..])
  }

  /** The upper-case hex digit `fmt_bytes_hex` writes for a nibble. */
  function HexChar(v: nat): (c: char)
    requires v < 16
    ensures IsHexDigit(c) && HexValue(c) == v
  {
    if v < 10 then '0' + v as char else 'A' + (v - 10) as char
  }

  /** `fmt_bytes_hex`: two upper-case hex digits per byte. */
  function BytesToHex(b: seq<Uint8>): (h: string)
    ensures |h| == 2 * |b|
    ensures IsHexText(h)
  {
    if |b| == 0 then [] else [HexChar(b[0] / 16), HexChar(b[0] % 16)] + BytesToHex(b[1..])
  }

  /** A hex digit written in upper case. */
  function UpperHexDigit(c: char): char {
    if 'a' <= c <= 'f' then c - 'a' + 'A' else c
  }

  function UpperHex(h: string): (u: string)
    ensures |u| == |h|
    ensures forall i :: 0 <= i < |h| ==> u[i] == UpperHexDigit(h[i])
  {
    if |h| == 0 then [] else [UpperHexDigit(h[0])] + UpperHex(h[1..])
  }

  /** Printing bytes and reading them back gives the same bytes. */
  lemma {:induction false} HexToBytesOfBytesToHex(b: seq<Uint8>)
    ensures HexToBytes(BytesToHex(b)) == b
  {
    if |b| > 0 {
      var h := BytesToHex(b);
      assert h[2..] == BytesToHex(b[1..]);
      HexToBytesOfBytesToHex(b[1..]);
      assert 16 * (b[0] / 16) + b[0] % 16 == b[0];
    }
  }

  /** Reading a hex key and printing it back gives the key in upper case. */
  lemma {:induction false} BytesToHexOfHexToBytes(h: string)
    requires |h| % 2 == 0 && IsHexText(h)
    ensures BytesToHex(HexToBytes(h)) == UpperHex(h)
  {
    if |h| > 0 {
      var hi, lo := HexValue(h[0]), HexValue(h[1]);
      var v := 16 * hi + lo;
      assert v / 16 == hi && v % 16 == lo;
      assert HexChar(hi) == UpperHexDigit(h[0]);
      assert HexChar(lo) == UpperHexDigit(h[1]);
      BytesToHexOfHexToBytes(h[2..]);
      assert UpperHex(h) == [UpperHexDigit(h[0]), UpperHexDigit(h[1])] + UpperHex(h[2..]);
    }
  }

  // ---------------------------------------------------------------------
  // C strings: the shell hands each argument over as its UTF-8 bytes

  /** The UTF-8 encoding of one character. */
  function Utf8Char(c: char): (b: seq<Uint8>)
    ensures 1 <= |b| <= 4
    ensures |b| == 1 <==> c as int < 0x80
    ensures |b| == 1 ==> b[0] == c as int
    ensures |b| > 1 ==> forall i :: 0 <= i < |b| ==> 0x80 <= b[i]
  {
    var n := c as int;
    if n < 0x80 then [n]
    else if n < 0x800 then [0xC0 + n / 0x40, 0x80 + n % 0x40]
    else if n < 0x1_0000 then [0xE0 + n / 0x1000, 0x80 + n / 0x40 % 0x40, 0x80 + n % 0x40]
    else [0xF0 + n / 0x4_0000 % 0x8, 0x80 + n / 0x1000 % 0x40, 0x80 + n / 0x40 % 0x40, 0x80 + n % 0x40]
  }

  /** The bytes of the C string holding `s`, without the terminating NUL. */
  function Utf8(s: string): (b: seq<Uint8>)
    ensures |s| <= |b| <= 4 * |s|
  {
    if |s| == 0 then [] else Utf8Char(s[0]) + Utf8(s[1..])
  }

  /** `strlen`: the number of bytes, not of characters. */
  function Strlen(s: string): nat {
    |Utf8(s)|
  }

  /** The bytes of a C string read one character per byte, as `fmt_hex_bytes` reads them. */
  function ByteText(b: seq<Uint8>): (t: string)
    ensures |t| == |b|
    ensures forall i :: 0 <= i < |b| ==> t[i] as int == b[i]
  {
    if |b| == 0 then [] else [b[0] as char] + ByteText(b[1..])
  }

  /** The text a C routine scanning the bytes of `s` sees. */
  function CBytes(s: string): (t: string)
    ensures |t| == Strlen(s)
  {
    ByteText(Utf8(s))
  }

  predicate IsAscii(s: string) {
    forall i :: 0 <= i < |s| ==> s[i] as int < 0x80
  }

  /** Byte and character views agree on ASCII text, and only there. */
  lemma {:induction false} StrlenIsLength(s: string)
    ensures Strlen(s) == |s| <==> IsAscii(s)
    ensures IsAscii(s) ==> CBytes(s) == s
  {
    if |s| > 0 {
      StrlenIsLength(s[1..]);
      assert Utf8(s) == Utf8Char(s[0]) + Utf8(s[1..]);
      if IsAscii(s) {
        assert IsAscii(s[1..]) by {
          forall i | 0 <= i < |s| - 1 ensures s[1..][i] as int < 0x80 { assert s[1..][i] == s[i + 1]; }
        }
        assert CBytes(s)[0] == s[0];
        assert CBytes(s)[1..] == CBytes(s[1..]) by {
          var t, u := CBytes(s), CBytes(s[1..]);
          forall i | 0 <= i < |u| ensures t[1..][i] == u[i] {
            assert Utf8(s)[1 + i] == Utf8(s[1..])[i];
          }
        }
      } else if s[0] as int < 0x80 {
        assert !IsAscii(s[1..]) by {
          var j :| 0 <= j < |s| && s[j] as int >= 0x80;
          assert s[1..][j - 1] == s[j];
        }
      }
    }
  }

  /** Hex digits are ASCII, so a hex key is as long in bytes as in characters. */
  lemma HexTextIsAscii(h: string)
    requires IsHexText(h)
    ensures IsAscii(h)
  {
    forall i | 0 <= i < |h| ensures h[i] as int < 0x80 { assert IsHexDigit(h[i]); }
  }
}
