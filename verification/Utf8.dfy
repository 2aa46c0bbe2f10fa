/** UTF-8 (RFC 3629, section 4) between bytes and strings, as `core::str::from_utf8` checks it. */
module Utf8 {
  import opened Xcm

  newtype Byte = b: int | 0 <= b < 256

  // ---------- Encoding ----------

  /** The digits of a scalar value in base 64, least significant first. */
  function Digits(n: nat): (nat, nat, nat, nat) {
    (n % 64, n / 64 % 64, n / 64 / 64 % 64, n / 64 / 64 / 64)
  }

  function EncodeChar(c: char): seq<Byte> {
    var n := c as int;
    var (d0, d1, d2, d3) := Digits(n);
    if n < 0x80 then [n as Byte]
    else if n < 0x800 then [(0xC0 + d1) as Byte, (0x80 + d0) as Byte]
    else if n < 0x10000 then [(0xE0 + d2) as Byte, (0x80 + d1) as Byte, (0x80 + d0) as Byte]
    else [(0xF0 + d3) as Byte, (0x80 + d2) as Byte, (0x80 + d1) as Byte, (0x80 + d0) as Byte]
  }

  function Encode(s: string): seq<Byte> {
    if s == "" then [] else EncodeChar(s[0]) + Encode(s[1..])
  }

  // ---------- Decoding ----------

  predicate Tail(b: Byte) {
    0x80 <= b <= 0xBF
  }

  /** The number of bytes of the well-formed character at the front, or 0 when there is none. */
  function FrontLength(s: seq<Byte>): (n: nat)
    ensures n <= |s| && n <= 4
  {
    if |s| >= 1 && s[0] <= 0x7F then 1
    else if |s| >= 2 && 0xC2 <= s[0] <= 0xDF && Tail(s[1]) then 2
    else if |s| >= 3 && 0xE0 <= s[0] <= 0xEF && Tail(s[1]) && Tail(s[2])
            && (s[0] == 0xE0 ==> s[1] >= 0xA0) && (s[0] == 0xED ==> s[1] <= 0x9F) then 3
    else if |s| >= 4 && 0xF0 <= s[0] <= 0xF4 && Tail(s[1]) && Tail(s[2]) && Tail(s[3])
            && (s[0] == 0xF0 ==> s[1] >= 0x90) && (s[0] == 0xF4 ==> s[1] <= 0x8F) then 4
    else 0
  }

  function Value(d3: nat, d2: nat, d1: nat, d0: nat): nat {
    d3 * 262144 + d2 * 4096 + d1 * 64 + d0
  }

  function FrontValue(s: seq<Byte>): nat
    requires FrontLength(s) > 0
  {
    match FrontLength(s)
    case 1 => s[0] as nat
    case 2 => Value(0, 0, s[0] as nat - 0xC0, s[1] as nat - 0x80)
    case 3 => Value(0, s[0] as nat - 0xE0, s[1] as nat - 0x80, s[2] as nat - 0x80)
    case _ => Value(s[0] as nat - 0xF0, s[1] as nat - 0x80, s[2] as nat - 0x80, s[3] as nat - 0x80)
  }

  lemma FrontValueIsScalar(s: seq<Byte>)
    requires FrontLength(s) > 0
    ensures var n := FrontValue(s); n < 0xD800 || 0xE000 <= n < 0x110000
  {
  }

  function FrontChar(s: seq<Byte>): char
    requires FrontLength(s) > 0
  {
    FrontValueIsScalar(s);
    FrontValue(s) as char
  }

  function Decode(s: seq<Byte>): Option<string> {
    if s == [] then Some("")
    else
      var n := FrontLength(s);
      if n == 0 then None
      else
        match Decode(s[n..])
        case None => None
        case Some(rest) => Some([FrontChar(s)] + rest)
  }

  // ---------- Round trips ----------

  lemma ValueOfDigits(n: nat)
    ensures var (d0, d1, d2, d3) := Digits(n);
            && Value(d3, d2, d1, d0) == n
            && (n < 0x10000 ==> d3 == 0 && d2 < 16) && (n < 0x1000 ==> d2 == 0) && (n < 0x800 ==> d1 < 32)
            && (n >= 0x800 ==> d2 > 0 || d1 >= 32 || d3 > 0) && (n >= 0x80 ==> d2 > 0 || d1 >= 2 || d3 > 0)
            && (n >= 0x10000 ==> d3 > 0 || d2 >= 16) && (n < 0x110000 ==> d3 < 4 || (d3 == 4 && d2 < 16))
            && (0xD000 <= n < 0xD800 ==> d2 == 13 && d1 < 32) && (d3 == 0 && d2 == 13 ==> 0xD000 <= n < 0xE000)
  {
  }

  lemma DigitsOfValue(d3: nat, d2: nat, d1: nat, d0: nat)
    requires d2 < 64 && d1 < 64 && d0 < 64
    ensures Digits(Value(d3, d2, d1, d0)) == (d0, d1, d2, d3)
  {
    var n := Value(d3, d2, d1, d0);
    var x1 := d3 * 4096 + d2 * 64 + d1;
    var x2 := d3 * 64 + d2;
    assert n == 64 * x1 + d0 && n / 64 == x1;
    assert x1 == 64 * x2 + d1 && x1 / 64 == x2;
  }

  lemma FrontOfEncoded(c: char, rest: seq<Byte>)
    ensures var s := EncodeChar(c) + rest;
            FrontLength(s) == |EncodeChar(c)| && FrontChar(s) == c
  {
    var n := c as nat;
    ValueOfDigits(n);
    var e := EncodeChar(c);
    var s := e + rest;
    assert forall i :: 0 <= i < |e| ==> s[i] == e[i];
    if n < 0x80 {
    } else if n < 0x800 {
      assert FrontLength(s) == 2;
    } else if n < 0x10000 {
      assert FrontLength(s) == 3;
    } else {
      assert FrontLength(s) == 4;
    }
    assert FrontValue(s) == n;
  }

  lemma EncodedFrontOfTwo(s: seq<Byte>)
    requires FrontLength(s) == 2
    ensures EncodeChar(FrontChar(s)) == s[..2]
  {
    DigitsOfValue(0, 0, s[0] as nat - 0xC0, s[1] as nat - 0x80);
  }

  lemma EncodedFrontOfThree(s: seq<Byte>)
    requires FrontLength(s) == 3
    ensures EncodeChar(FrontChar(s)) == s[..3]
  {
    DigitsOfValue(0, s[0] as nat - 0xE0, s[1] as nat - 0x80, s[2] as nat - 0x80);
  }

  lemma EncodedFrontOfFour(s: seq<Byte>)
    requires FrontLength(s) == 4
    ensures EncodeChar(FrontChar(s)) == s[..4]
  {
    DigitsOfValue(s[0] as nat - 0xF0, s[1] as nat - 0x80, s[2] as nat - 0x80, s[3] as nat - 0x80);
  }

  lemma EncodedFront(s: seq<Byte>)
    requires FrontLength(s) > 0
    ensures EncodeChar(FrontChar(s)) == s[..FrontLength(s)]
  {
    FrontValueIsScalar(s);
    match FrontLength(s)
    case 1 =>
    case 2 => EncodedFrontOfTwo(s);
    case 3 => EncodedFrontOfThree(s);
    case _ => EncodedFrontOfFour(s);
  }

  /** Every string survives encoding. */
  lemma {:induction false} DecodeEncode(s: string)
    ensures Decode(Encode(s)) == Some(s)
  {
    if s != "" {
      FrontOfEncoded(s[0], Encode(s[1..]));
      DecodeEncode(s[1..]);
      assert Encode(s)[|EncodeChar(s[0])|..] == Encode(s[1..]);
      assert s == [s[0]] + s[1..];
    }
  }

  lemma DecodeStep(s: seq<Byte>)
    requires s != [] && Decode(s).Some?
    ensures var n := FrontLength(s);
            0 < n <= |s| && Decode(s[n..]).Some? && Decode(s).value == [FrontChar(s)] + Decode(s[n..]).value
  {
  }

  lemma EncodeStep(c: char, rest: string, front: seq<Byte>, back: seq<Byte>)
    requires EncodeChar(c) == front && Encode(rest) == back
    ensures Encode([c] + rest) == front + back
  {
    assert ([c] + rest)[1..] == rest;
  }

  /** A byte sequence that decodes is the encoding of what it decodes to: there is only one. */
  lemma {:induction false} EncodeDecode(s: seq<Byte>)
    requires Decode(s).Some?
    ensures Encode(Decode(s).value) == s
    decreases |s|
  {
    if s != [] {
      DecodeStep(s);
      var n := FrontLength(s);
      var front, back := s[..n], s[n..];
      assert s == front + back;
      EncodedFront(s);
      EncodeDecode(back);
      EncodeStep(FrontChar(s), Decode(back).value, front, back);
    }
  }
}
