/** Text as the program writes it: UTF-8 bytes and decimal numerals. */
module Text {

  type Byte = b: int | 0 <= b < 256

  /** The UTF-8 form of one Unicode scalar value (section 3 of RFC 3629). */
  function Utf8Char(c: char): (bytes: seq<Byte>)
    ensures 1 <= |bytes| <= 4
  {
    var n := c as int;
    if n < 0x80 then [n]
    else if n < 0x800 then [0xC0 + n / 0x40, 0x80 + n % 0x40]
    else if n < 0x10000 then [0xE0 + n / 0x1000, 0x80 + n / 0x40 % 0x40, 0x80 + n % 0x40]
    else [0xF0 + n / 0x40000, 0x80 + n / 0x1000 % 0x40, 0x80 + n / 0x40 % 0x40, 0x80 + n % 0x40]
  }

  function Utf8(s: string): (bytes: seq<Byte>) {
    if |s| == 0 then [] else Utf8Char(s[0]) + Utf8(s[1..])
  }

  lemma {:induction false} Utf8Concat(a: string, b: string)
    ensures Utf8(a + b) == Utf8(a) + Utf8(b)
  {
    if |a| == 0 {
      assert a + b == b;
    } else {
      assert (a + b)[1..] == a[1..] + b;
      Utf8Concat(a[1..], b);
      assert Utf8(a + b) == Utf8Char(a[0]) + (Utf8(a[1..]) + Utf8(b));
    }
  }

  /** How many bytes a character takes can be read off its first byte. */
  function CharLength(lead: Byte): nat {
    if lead < 0x80 then 1 else if lead < 0xE0 then 2 else if lead < 0xF0 then 3 else 4
  }

  lemma Utf8CharPrefixFree(c: char, d: char, rest: seq<Byte>, rest': seq<Byte>)
    requires Utf8Char(c) + rest == Utf8Char(d) + rest'
    ensures c == d && rest == rest'
  {
    var n := Utf8Char(c) + rest;
    assert n[0] == Utf8Char(c)[0] == Utf8Char(d)[0];
    assert |Utf8Char(c)| == CharLength(n[0]) == |Utf8Char(d)|;
    assert Utf8Char(c) == n[..|Utf8Char(c)|] == Utf8Char(d);
    Utf8CharInjective(c, d);
    assert rest == n[|Utf8Char(c)|..] == rest';
  }

  /** The six bits that a byte after the first carries. */
  function Bits(b: int): int {
    b - 0x80
  }

  /** Reads a scalar value back from its bytes. */
  function ScalarOf(bytes: seq<Byte>): int {
    var lead: int := if |bytes| == 0 then 0 else bytes[0];
    if |bytes| == 2 then (lead - 0xC0) * 0x40 + Bits(bytes[1])
    else if |bytes| == 3 then (lead - 0xE0) * 0x1000 + Bits(bytes[1]) * 0x40 + Bits(bytes[2])
    else if |bytes| == 4 then
      (lead - 0xF0) * 0x40000 + Bits(bytes[1]) * 0x1000 + Bits(bytes[2]) * 0x40 + Bits(bytes[3])
    else lead
  }

  lemma SixBits(n: nat)
    ensures n == n / 0x40 * 0x40 + n % 0x40
    ensures n / 0x40 == n / 0x1000 * 0x40 + n / 0x40 % 0x40
    ensures n / 0x1000 == n / 0x40000 * 0x40 + n / 0x1000 % 0x40
  {
  }

  lemma ScalarOfUtf8Char(c: char)
    ensures ScalarOf(Utf8Char(c)) == c as int
  {
    SixBits(c as int);
  }

  lemma Utf8CharInjective(c: char, d: char)
    requires Utf8Char(c) == Utf8Char(d)
    ensures c == d
  {
    hide Utf8Char, ScalarOf;
    ScalarOfUtf8Char(c);
    ScalarOfUtf8Char(d);
  }

  /** Texts with the same UTF-8 form are the same. */
  lemma {:induction false} Utf8Injective(a: string, b: string)
    requires Utf8(a) == Utf8(b)
    ensures a == b
  {
    if |a| > 0 && |b| > 0 {
      Utf8CharPrefixFree(a[0], b[0], Utf8(a[1..]), Utf8(b[1..]));
      Utf8Injective(a[1..], b[1..]);
      assert a == [a[0]] + a[1..] && b == [b[0]] + b[1..];
    }
  }

  /** The number of UTF-16 code units, which is the length that JavaScript gives a text. */
  function Utf16Length(s: string): nat {
    if |s| == 0 then 0 else (if s[0] as int < 0x10000 then 1 else 2) + Utf16Length(s[1..])
  }

  // ---- Decimal numerals

  function Digit(d: nat): char
    requires d < 10
  {
    "0123456789"[d]
  }

  function Decimal(n: nat): (s: string)
    ensures |s| > 0
    ensures forall i :: 0 <= i < |s| ==> '0' <= s[i] <= '9'
  {
    if n < 10 then [Digit(n)] else Decimal(n / 10) + [Digit(n % 10)]
  }

  /** A signed numeral, as String(value), ToString and printf's %d write it. */
  function DecimalInt(n: int): (s: string)
    ensures |s| > 0
    ensures forall i :: 0 <= i < |s| ==> s[i] == '-' || '0' <= s[i] <= '9'
  {
    if n < 0 then "-" + Decimal(-n) else Decimal(n)
  }

  function ValueOf(s: string): nat
    requires forall i :: 0 <= i < |s| ==> '0' <= s[i] <= '9'
  {
    if |s| == 0 then 0 else 10 * ValueOf(s[..|s| - 1]) + (s[|s| - 1] as int - '0' as int)
  }

  lemma {:induction false} DecimalValue(n: nat)
    ensures ValueOf(Decimal(n)) == n
  {
    if n < 10 {
      assert Decimal(n) == [Digit(n)];
      assert Decimal(n)[..0] == [];
    } else {
      DecimalValue(n / 10);
      var s := Decimal(n);
      assert s[..|s| - 1] == Decimal(n / 10);
    }
  }

  /** The decimal digits of a number, without leading zeros. */
  ghost predicate IsNumeral(s: string, n: nat) {
    && |s| > 0 && (forall i :: 0 <= i < |s| ==> '0' <= s[i] <= '9')
    && (|s| > 1 ==> s[0] != '0')
    && ValueOf(s) == n
  }

  lemma {:induction false} NoLeadingZero(n: nat)
    ensures |Decimal(n)| > 1 || n > 0 ==> Decimal(n)[0] != '0'
  {
    if n >= 10 {
      NoLeadingZero(n / 10);
    }
  }

  lemma DecimalIsNumeral(n: nat)
    ensures IsNumeral(Decimal(n), n)
  {
    DecimalValue(n);
    NoLeadingZero(n);
  }

  /** A signed numeral is that of the absolute value, with a minus sign for a negative number. */
  lemma DecimalIntIsNumeral(n: int)
    ensures if n < 0 then DecimalInt(n)[0] == '-' && IsNumeral(DecimalInt(n)[1..], -n) else IsNumeral(DecimalInt(n), n)
  {
    DecimalIsNumeral(if n < 0 then -n else n);
    if n < 0 {
      assert DecimalInt(n)[1..] == Decimal(-n);
    }
    hide Decimal;
  }

  lemma DecimalInjective(m: nat, n: nat)
    requires Decimal(m) == Decimal(n)
    ensures m == n
  {
    DecimalValue(m);
    DecimalValue(n);
  }

  lemma DecimalIntInjective(m: int, n: int)
    requires DecimalInt(m) == DecimalInt(n)
    ensures m == n
  {
    assert DecimalInt(m)[0] == '-' <==> m < 0;
    assert DecimalInt(n)[0] == '-' <==> n < 0;
    if m < 0 {
      assert DecimalInt(m)[1..] == Decimal(-m) && DecimalInt(n)[1..] == Decimal(-n);
      DecimalInjective(-m, -n);
    } else {
      DecimalInjective(m, n);
    }
  }
}
