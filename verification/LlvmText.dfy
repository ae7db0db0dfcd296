/** String literals of LLVM assembly: printable bytes as they are, the rest in hexadecimal. */
module LlvmText {
  import opened Options
  import opened Text

  function HexDigit(d: nat): char
    requires d < 16
  {
    if d < 10 then ('0' as int + d) as char else ('A' as int + d - 10) as char
  }

  /** The value of a hexadecimal digit; the assembler reads both cases. */
  function HexValue(c: char): Option<nat> {
    if '0' <= c <= '9' then Some(c as int - '0' as int)
    else if 'A' <= c <= 'F' then Some(c as int - 'A' as int + 10)
    else if 'a' <= c <= 'f' then Some(c as int - 'a' as int + 10)
    else None
  }

  predicate Printable(b: Byte) {
    0x20 <= b <= 0x7E && b != '\\' as int && b != '"' as int
  }

  function EscapeByte(b: Byte): string {
    if Printable(b) then [b as char] else ['\\', HexDigit(b / 16), HexDigit(b % 16)]
  }

  function Escape(bytes: seq<Byte>): string {
    if |bytes| == 0 then "" else EscapeByte(bytes[0]) + Escape(bytes[1..])
  }

  method EscapeCString(bytes: seq<Byte>) returns (literal: string)
    ensures literal == Escape(bytes)
    ensures Unescape(literal) == Some(bytes)
    ensures '"' !in literal
  {
    hide Unescape, HexDigit, Escape;
    EscapeStep(bytes, 0);
    literal := "";
    for i := 0 to |bytes|
      invariant Escape(bytes) == literal + Escape(bytes[i..])
    {
      EscapeStep(bytes, i);
      ghost var before := literal;
      if 0x20 <= bytes[i] <= 0x7E && bytes[i] != '\\' as int && bytes[i] != '"' as int {
        literal := literal + [bytes[i] as char];
      } else {
        literal := literal + ['\\', HexDigit(bytes[i] / 16), HexDigit(bytes[i] % 16)];
      }
      assert literal == before + EscapeByte(bytes[i]);
      assert before + (EscapeByte(bytes[i]) + Escape(bytes[i + 1..])) == literal + Escape(bytes[i + 1..]);
    }
    EscapeStep(bytes, |bytes|);
    UnescapeEscape(bytes);
    EscapeHasNoQuote(bytes);
  }

  lemma EscapeStep(bytes: seq<Byte>, i: nat)
    requires i <= |bytes|
    ensures i == 0 ==> Escape(bytes[i..]) == Escape(bytes)
    ensures i < |bytes| ==> Escape(bytes[i..]) == EscapeByte(bytes[i]) + Escape(bytes[i + 1..])
    ensures i == |bytes| ==> Escape(bytes[i..]) == ""
  {
    if i == 0 {
      assert bytes[i..] == bytes;
    }
    if i < |bytes| {
      assert bytes[i..][1..] == bytes[i + 1..];
    }
  }

  lemma {:induction false} EscapeHasNoQuote(bytes: seq<Byte>)
    ensures '"' !in Escape(bytes)
  {
    if |bytes| > 0 {
      EscapeHasNoQuote(bytes[1..]);
    }
  }

  /** What the assembler reads between the quotes of a literal. */
  function Unescape(s: string): Option<seq<Byte>> {
    if |s| == 0 then Some([])
    else if s[0] == '\\' then
      if |s| < 3 then None
      else
        match (HexValue(s[1]), HexValue(s[2]))
        case (Some(high), Some(low)) =>
          (match Unescape(s[3..])
           case None => None
           case Some(rest) => if high < 16 && low < 16 then Some([16 * high + low] + rest) else None)
        case _ => None
    else if s[0] == '"' || s[0] as int >= 0x80 then None
    else
      match Unescape(s[1..])
      case None => None
      case Some(rest) => Some([s[0] as int] + rest)
  }

  lemma HexRoundTrip(d: nat)
    requires d < 16
    ensures HexValue(HexDigit(d)) == Some(d)
  {
  }

  lemma UnescapeHex(s: string, b: Byte)
    requires |s| >= 3 && s[0] == '\\' && Unescape(s[3..]).Some?
    requires HexValue(s[1]) == Some(b / 16) && HexValue(s[2]) == Some(b % 16)
    ensures Unescape(s) == Some([b] + Unescape(s[3..]).value)
  {
    hide HexValue;
    assert 16 * (b / 16) + b % 16 == b;
  }

  lemma UnescapeOneByte(b: Byte, s: string)
    requires Unescape(s).Some?
    ensures Unescape(EscapeByte(b) + s) == Some([b] + Unescape(s).value)
  {
    hide HexDigit, HexValue;
    var e := EscapeByte(b);
    assert (e + s)[|e|..] == s;
    if !Printable(b) {
      HexRoundTrip(b / 16);
      HexRoundTrip(b % 16);
      UnescapeHex(e + s, b);
    }
  }

  /** Reading a literal that was written gives the bytes back. */
  lemma {:induction false} UnescapeEscape(bytes: seq<Byte>)
    ensures Unescape(Escape(bytes)) == Some(bytes)
  {
    if |bytes| > 0 {
      UnescapeEscape(bytes[1..]);
      UnescapeOneByte(bytes[0], Escape(bytes[1..]));
      assert bytes == [bytes[0]] + bytes[1..];
    }
  }

  lemma {:induction false} EscapeConcat(a: seq<Byte>, b: seq<Byte>)
    ensures Escape(a + b) == Escape(a) + Escape(b)
  {
    if |a| == 0 {
      assert a + b == b;
    } else {
      assert (a + b)[1..] == a[1..] + b;
      EscapeConcat(a[1..], b);
    }
  }
}
