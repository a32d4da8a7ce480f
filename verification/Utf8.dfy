/** UTF-8 text and its white space by code points, against the byte tests of the head parser (src-tauri/src/main.rs:821-823). */
module Utf8 {
  import opened Bytes
  import opened HttpHead
  import opened HttpHeadGrammar

  /** A code point that is not a surrogate. */
  predicate Scalar(c: nat) {
    c < 0xD800 || 0xE000 <= c <= 0x10FFFF
  }

  function Tail(c: nat): byte {
    0x80 + c % 64
  }

  function Encode(c: nat): (s: seq<byte>)
    requires Scalar(c)
    ensures s != []
  {
    if c < 0x80 then [c]
    else if c < 0x800 then [0xC0 + c / 64, Tail(c)]
    else if c < 0x1_0000 then [0xE0 + c / 64 / 64, Tail(c / 64), Tail(c)]
    else [0xF0 + c / 64 / 64 / 64, Tail(c / 64 / 64), Tail(c / 64), Tail(c)]
  }

  predicate Scalars(cs: seq<nat>) {
    forall i :: 0 <= i < |cs| ==> Scalar(cs[i])
  }

  function EncodeAll(cs: seq<nat>): seq<byte>
    requires Scalars(cs)
  {
    if cs == [] then [] else Encode(cs[0]) + EncodeAll(cs[1..])
  }

  /** The code points with the White_Space property. */
  predicate WhiteSpace(c: nat) {
    || 0x9 <= c <= 0xD || c == 0x20 || c == 0x85 || c == 0xA0 || c == 0x1680 || 0x2000 <= c <= 0x200A
    || c == 0x2028 || c == 0x2029 || c == 0x202F || c == 0x205F || c == 0x3000
  }

  /** The payload of a byte. */
  function Bits(b: byte, base: nat): nat
    requires base <= b
  {
    b - base
  }

  function Join2(a: nat, b: nat): nat {
    a * 64 + b
  }

  lemma Join2Splits(a: nat, b: nat)
    requires b < 64
    ensures Join2(a, b) / 64 == a && Join2(a, b) % 64 == b
  {
  }

  /** The code point at the front, if the bytes are well-formed there. */
  function Decode(s: seq<byte>): nat
    requires s != [] && Utf8Width(s) != 0
  {
    match Utf8Width(s)
    case 1 => s[0]
    case 2 => Join2(Bits(s[0], 0xC0), Bits(s[1], 0x80))
    case 3 => Join2(Join2(Bits(s[0], 0xE0), Bits(s[1], 0x80)), Bits(s[2], 0x80))
    case _ => Join2(Join2(Join2(Bits(s[0], 0xF0), Bits(s[1], 0x80)), Bits(s[2], 0x80)), Bits(s[3], 0x80))
  }

  lemma EncodedWidth(c: nat, s: seq<byte>)
    requires Scalar(c) && Encode(c) <= s
    ensures Utf8Width(s) == |Encode(c)|
  {
  }

  lemma DecodedFits(s: seq<byte>)
    requires s != [] && Utf8Width(s) != 0
    ensures Scalar(Decode(s)) && s[..Utf8Width(s)] == Encode(Decode(s))
  {
    match Utf8Width(s)
    case 1 =>
    case 2 => DecodedFits2(s);
    case 3 => DecodedFits3(s);
    case _ => DecodedFits4(s);
  }

  lemma DecodedFits2(s: seq<byte>)
    requires s != [] && Utf8Width(s) == 2
    ensures Scalar(Decode(s)) && s[..2] == Encode(Decode(s))
  {
    Join2Splits(Bits(s[0], 0xC0), Bits(s[1], 0x80));
  }

  lemma DecodedFits3(s: seq<byte>)
    requires s != [] && Utf8Width(s) == 3
    ensures Scalar(Decode(s)) && s[..3] == Encode(Decode(s))
  {
    hide Encode;
    Encoded3(Bits(s[0], 0xE0), Bits(s[1], 0x80), Bits(s[2], 0x80));
  }

  lemma Encoded3(a: nat, b: nat, c: nat)
    requires a < 16 && b < 64 && c < 64 && (a == 0 ==> 32 <= b) && (a == 13 ==> b < 32)
    ensures var z := Join2(Join2(a, b), c);
            Scalar(z) && Encode(z) == [0xE0 + a, 0x80 + b, 0x80 + c]
  {
    var x := Join2(a, b);
    var z := Join2(x, c);
    assert 0x800 <= z < 0x1_0000;
    Join2Splits(a, b);
    Join2Splits(x, c);
  }

  lemma DecodedFits4(s: seq<byte>)
    requires s != [] && Utf8Width(s) == 4
    ensures Scalar(Decode(s)) && s[..4] == Encode(Decode(s))
  {
    hide Encode;
    Encoded4(Bits(s[0], 0xF0), Bits(s[1], 0x80), Bits(s[2], 0x80), Bits(s[3], 0x80));
  }

  lemma Encoded4(a: nat, b: nat, c: nat, d: nat)
    requires a <= 4 && b < 64 && c < 64 && d < 64 && (a == 0 ==> 16 <= b) && (a == 4 ==> b < 16)
    ensures var z := Join2(Join2(Join2(a, b), c), d);
            Scalar(z) && Encode(z) == [0xF0 + a, 0x80 + b, 0x80 + c, 0x80 + d]
  {
    var x := Join2(a, b);
    var y := Join2(x, c);
    var z := Join2(y, d);
    assert 0x1_0000 <= z <= 0x10_FFFF;
    Join2Splits(a, b);
    Join2Splits(x, c);
    Join2Splits(y, d);
  }

  /** The width at the front is that of an encoded code point, if one stands there. */
  lemma WidthExactly(s: seq<byte>, n: nat)
    requires s != [] && n != 0
    ensures Utf8Width(s) == n <==> exists c :: Scalar(c) && Encode(c) <= s && |Encode(c)| == n
  {
    hide Utf8Width, Encode, Decode;
    if Utf8Width(s) == n {
      DecodedFits(s);
    }
    if c :| Scalar(c) && Encode(c) <= s && |Encode(c)| == n {
      EncodedWidth(c, s);
    }
  }

  lemma {:induction false} EncodedIsValid(cs: seq<nat>)
    requires Scalars(cs)
    ensures ValidUtf8(EncodeAll(cs))
  {
    hide Encode, Utf8Width;
    if cs != [] {
      var s := EncodeAll(cs);
      EncodedWidth(cs[0], s);
      assert s[|Encode(cs[0])|..] == EncodeAll(cs[1..]);
      EncodedIsValid(cs[1..]);
    }
  }

  lemma {:induction false} ValidIsEncoded(s: seq<byte>) returns (cs: seq<nat>)
    requires ValidUtf8(s)
    ensures Scalars(cs) && EncodeAll(cs) == s
    decreases |s|
  {
    hide Encode, Utf8Width, Decode;
    cs := [];
    if s != [] {
      DecodedFits(s);
      cs := ValidIsEncoded(s[Utf8Width(s)..]);
      cs := [Decode(s)] + cs;
    }
  }

  /** Valid texts are exactly the encoded sequences of code points. */
  lemma ValidUtf8Exactly(s: seq<byte>)
    ensures ValidUtf8(s) <==> exists cs :: Scalars(cs) && EncodeAll(cs) == s
  {
    if ValidUtf8(s) {
      var cs := ValidIsEncoded(s);
    }
    if cs :| Scalars(cs) && EncodeAll(cs) == s {
      EncodedIsValid(cs);
    }
  }

  // ---------- White space ----------

  /** The white-space character that stands at the front of `s`, given its width. */
  lemma LeadingSpaceIs(s: seq<byte>)
    requires LeadingSpace(s) != 0
    ensures Utf8Width(s) == LeadingSpace(s) && WhiteSpace(Decode(s))
  {
  }

  lemma SpaceLeads(s: seq<byte>, c: nat)
    requires WhiteSpace(c) && Scalar(c) && Encode(c) <= s
    ensures LeadingSpace(s) == |Encode(c)|
  {
  }

  /** The test at the front finds exactly the white-space characters. */
  lemma LeadingSpaceExactly(s: seq<byte>, n: nat)
    requires n != 0
    ensures LeadingSpace(s) == n <==> exists c :: Scalar(c) && WhiteSpace(c) && Encode(c) <= s && |Encode(c)| == n
  {
    hide LeadingSpace, WhiteSpace, Encode, Utf8Width, Decode;
    if LeadingSpace(s) == n {
      LeadingSpaceIs(s);
      DecodedFits(s);
    }
    if c :| Scalar(c) && WhiteSpace(c) && Encode(c) <= s && |Encode(c)| == n {
      SpaceLeads(s, c);
    }
  }

  /** The test at the end finds the same characters. */
  lemma TrailingSpaceExactly(s: seq<byte>, n: nat)
    requires 0 < n <= |s|
    ensures TrailingSpace(s) == n <==> LeadingSpace(s[|s| - n..]) == n
  {
    var c := s[|s| - n..];
    if LeadingSpace(c) == n {
      assert s == s[..|s| - n] + c;
      SpaceIsTrailing(s[..|s| - n], c);
    }
  }
}
