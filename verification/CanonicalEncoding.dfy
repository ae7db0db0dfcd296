/** The length-prefixed encoding under every evidence root, and its decoder. */
module CanonicalEncoding {
  import opened Options
  import opened Text

  /** A value as it is added: nothing, or the text that stands for it. */
  type Part = Option<string>

  datatype Value = Null | Bool(b: bool) | Number(n: int) | Str(s: string)

  function TextOf(v: Value): Part {
    match v
    case Null => None
    case Bool(b) => Some(if b then "true" else "false")
    case Number(n) => Some(DecimalInt(n))
    case Str(s) => Some(s)
  }

  function Written(p: Part): string {
    match p
    case None => "-1:"
    case Some(text) => Decimal(|Utf8(text)|) + ":" + text
  }

  function Joined(strings: seq<string>): string {
    if |strings| == 0 then "" else strings[0] + Joined(strings[1..])
  }

  /** The bytes that are hashed for these parts. */
  function Preimage(parts: seq<Part>): seq<Byte> {
    if |parts| == 0 then [] else Utf8(Written(parts[0])) + Preimage(parts[1..])
  }

  class CanonicalHashBuilder {
    var parts: seq<string>
    ghost var added: seq<Part>

    ghost predicate Valid()
      reads this
    {
      |parts| == |added| && forall i :: 0 <= i < |added| ==> parts[i] == Written(added[i])
    }

    constructor ()
      ensures Valid() && added == []
    {
      parts := [];
      added := [];
    }

    method Add(value: Value)
      requires Valid()
      modifies this
      ensures Valid() && added == old(added) + [TextOf(value)]
    {
      added := added + [TextOf(value)];
      if value.Null? {
        parts := parts + ["-1:"];
        return;
      }
      var text := TextOf(value).value;
      parts := parts + [Decimal(|Utf8(text)|) + ":" + text];
    }

    /** The bytes handed to the hash function. */
    method Bytes() returns (bytes: seq<Byte>)
      requires Valid()
      ensures bytes == Preimage(added)
    {
      bytes := Utf8(Joined(parts));
      JoinedIsPreimage(parts, added);
    }
  }

  lemma {:induction false} JoinedIsPreimage(strings: seq<string>, parts: seq<Part>)
    requires |strings| == |parts| && forall i :: 0 <= i < |parts| ==> strings[i] == Written(parts[i])
    ensures Utf8(Joined(strings)) == Preimage(parts)
  {
    hide Written;
    if |parts| > 0 {
      JoinedIsPreimage(strings[1..], parts[1..]);
      Utf8Concat(strings[0], Joined(strings[1..]));
    }
  }

  // ---- Decoding

  const COLON: Byte := 0x3A
  const MINUS: Byte := 0x2D

  predicate IsDigit(b: Byte) {
    0x30 <= b <= 0x39
  }

  /** How many digits the bytes begin with. */
  function Digits(bytes: seq<Byte>): (n: nat)
    ensures n <= |bytes|
  {
    if |bytes| > 0 && IsDigit(bytes[0]) then 1 + Digits(bytes[1..]) else 0
  }

  function NumberIn(digits: seq<Byte>): nat
    requires forall i :: 0 <= i < |digits| ==> IsDigit(digits[i])
  {
    if |digits| == 0 then 0
    else
      assert IsDigit(digits[|digits| - 1]);
      10 * NumberIn(digits[..|digits| - 1]) + (digits[|digits| - 1] - 0x30)
  }

  lemma {:induction false} DigitsAreDigits(bytes: seq<Byte>)
    ensures forall i :: 0 <= i < Digits(bytes) ==> IsDigit(bytes[i])
    ensures Digits(bytes) < |bytes| ==> !IsDigit(bytes[Digits(bytes)])
  {
    if |bytes| > 0 && IsDigit(bytes[0]) {
      DigitsAreDigits(bytes[1..]);
    }
  }

  /** One part from the front: its bytes, or None for null, and the rest. */
  function DecodeOne(bytes: seq<Byte>): (r: Option<(Option<seq<Byte>>, seq<Byte>)>)
    ensures r.Some? ==> |r.value.1| < |bytes|
  {
    if |bytes| >= 3 && bytes[0] == MINUS && bytes[1] == 0x31 && bytes[2] == COLON then Some((None, bytes[3..]))
    else
      var d := Digits(bytes);
      if d == 0 || d == |bytes| || bytes[d] != COLON then None
      else
        DigitsAreDigits(bytes);
        var n := NumberIn(bytes[..d]);
        var body := bytes[d + 1..];
        if n > |body| then None else Some((Some(body[..n]), body[n..]))
  }

  function Decode(bytes: seq<Byte>): Option<seq<Option<seq<Byte>>>>
    decreases |bytes|
  {
    if |bytes| == 0 then Some([])
    else
      match DecodeOne(bytes)
      case None => None
      case Some((part, rest)) =>
        (match Decode(rest)
         case None => None
         case Some(parts) => Some([part] + parts))
  }

  function PartBytes(p: Part): Option<seq<Byte>> {
    match p
    case None => None
    case Some(text) => Some(Utf8(text))
  }

  function AllBytes(parts: seq<Part>): (r: seq<Option<seq<Byte>>>)
    ensures |r| == |parts|
    ensures forall i :: 0 <= i < |parts| ==> r[i] == PartBytes(parts[i])
  {
    if |parts| == 0 then [] else [PartBytes(parts[0])] + AllBytes(parts[1..])
  }

  lemma {:induction false} DecimalDigits(n: nat)
    ensures var b := Utf8(Decimal(n)); |b| > 0 && (forall i :: 0 <= i < |b| ==> IsDigit(b[i])) && NumberIn(b) == n
  {
    if n < 10 {
      OneDigit(n);
    } else {
      DecimalDigits(n / 10);
      OneDigit(n % 10);
      Utf8Concat(Decimal(n / 10), [Digit(n % 10)]);
      var b := Utf8(Decimal(n));
      assert b[..|b| - 1] == Utf8(Decimal(n / 10));
    }
  }

  lemma OneDigit(d: nat)
    requires d < 10
    ensures Utf8([Digit(d)]) == [0x30 + d] && NumberIn([0x30 + d]) == d
  {
    assert [Digit(d)][1..] == "" && Utf8("") == [];
    assert [0x30 + d][..0] == [];
  }

  lemma {:induction false} DigitsBefore(digits: seq<Byte>, rest: seq<Byte>)
    requires forall i :: 0 <= i < |digits| ==> IsDigit(digits[i])
    requires |rest| > 0 && !IsDigit(rest[0])
    ensures Digits(digits + rest) == |digits|
  {
    if |digits| == 0 {
      assert digits + rest == rest;
    } else {
      assert (digits + rest)[1..] == digits[1..] + rest;
      DigitsBefore(digits[1..], rest);
    }
  }

  lemma ColonByte()
    ensures Utf8(":") == [COLON]
  {
    assert ":"[1..] == "" && Utf8("") == [];
  }

  lemma WrittenBytes(text: string)
    ensures Utf8(Written(Some(text))) == Utf8(Decimal(|Utf8(text)|)) + [COLON] + Utf8(text)
  {
    hide Decimal, Utf8;
    ColonByte();
    var n := Decimal(|Utf8(text)|);
    Utf8Concat(n + ":", text);
    Utf8Concat(n, ":");
  }

  lemma DecodeText(text: string, rest: seq<Byte>)
    ensures DecodeOne(Utf8(Written(Some(text))) + rest) == Some((Some(Utf8(text)), rest))
  {
    hide Utf8, Digits, NumberIn, Decimal, Written;
    var bytes := Utf8(text);
    var digits := Utf8(Decimal(|bytes|));
    DecimalDigits(|bytes|);
    WrittenBytes(text);
    var all := Utf8(Written(Some(text))) + rest;
    var tail := [COLON] + bytes + rest;
    assert all == digits + tail;
    DigitsBefore(digits, tail);
    assert all[..|digits|] == digits && all[0] == digits[0];
    assert all[|digits| + 1..] == bytes + rest;
    assert (bytes + rest)[..|bytes|] == bytes && (bytes + rest)[|bytes|..] == rest;
  }

  lemma NullBytes()
    ensures Utf8("-1:") == [MINUS, 0x31, COLON]
  {
    assert "-1:"[1..] == "1:" && "1:"[1..] == ":";
    ColonByte();
  }

  lemma DecodeNull(rest: seq<Byte>)
    ensures DecodeOne(Utf8("-1:") + rest) == Some((None, rest))
  {
    NullBytes();
    var all := Utf8("-1:") + rest;
    assert all[3..] == rest;
  }

  /** The decoder gets back every part, in order. */
  lemma {:induction false} DecodePreimage(parts: seq<Part>)
    ensures Decode(Preimage(parts)) == Some(AllBytes(parts))
  {
    hide Utf8, DecodeOne, Written;
    if |parts| > 0 {
      DecodePreimage(parts[1..]);
      DecodeFirst(parts[0], Preimage(parts[1..]));
    }
  }

  lemma DecodeFirst(p: Part, rest: seq<Byte>)
    ensures DecodeOne(Utf8(Written(p)) + rest) == Some((PartBytes(p), rest))
  {
    hide Utf8, DecodeOne;
    match p
    case None => DecodeNull(rest);
    case Some(text) => DecodeText(text, rest);
  }

  /** So equal preimages come from equal parts. */
  lemma PreimageInjective(a: seq<Part>, b: seq<Part>)
    requires Preimage(a) == Preimage(b)
    ensures a == b
  {
    DecodePreimage(a);
    DecodePreimage(b);
    hide Decode, Preimage;
    assert |a| == |AllBytes(a)| == |b|;
    forall i | 0 <= i < |a| ensures a[i] == b[i] {
      assert AllBytes(a)[i] == PartBytes(a[i]) && AllBytes(b)[i] == PartBytes(b[i]);
      if a[i].Some? {
        Utf8Injective(a[i].value, b[i].value);
      }
    }
  }
}
