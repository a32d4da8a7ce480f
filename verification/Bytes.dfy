/** Octets, the size limits of the readiness probe, and the search for a line end. */
module Bytes {
  datatype Option<+T> = None | Some(value: T)

  type byte = b: int | 0 <= b < 256

  const CR: byte := 13
  const LF: byte := 10
  const CRLF: seq<byte> := [13, 10]

  // src-tauri/src/main.rs:38-40
  const BODY_CAP: nat := 65536
  const METADATA_CAP: nat := 16384
  const WIRE_CAP: nat := BODY_CAP + METADATA_CAP

  // The largest value of the 64-bit `usize` in which sizes are counted.
  const USIZE_MAX: nat := 0xFFFF_FFFF_FFFF_FFFF

  // No slice is longer than this.
  const ISIZE_MAX: nat := 0x7FFF_FFFF_FFFF_FFFF

  predicate IsControl(b: byte) {
    b < 32 || b == 127
  }

  predicate IsDigit(b: byte) {
    48 <= b <= 57
  }

  predicate IsHexDigit(b: byte) {
    IsDigit(b) || 65 <= b <= 70 || 97 <= b <= 102
  }

  predicate IsAlphabetic(b: byte) {
    65 <= b <= 90 || 97 <= b <= 122
  }

  // Space, horizontal tab, line feed, form feed, carriage return.
  predicate IsWhitespace(b: byte) {
    b == 32 || b == 9 || b == 10 || b == 12 || b == 13
  }

  predicate HasInk(s: seq<byte>) {
    exists i :: 0 <= i < |s| && !IsWhitespace(s[i])
  }

  // The token alphabet: ! # $ % & ' * + - . ^ _ ` | ~ and alphanumerics.
  predicate IsTokenByte(b: byte) {
    || IsDigit(b) || IsAlphabetic(b)
    || b == 33 || b == 35 || b == 36 || b == 37 || b == 38 || b == 39 || b == 42 || b == 43
    || b == 45 || b == 46 || b == 94 || b == 95 || b == 96 || b == 124 || b == 126
  }

  predicate IsToken(s: seq<byte>) {
    s != [] && forall i :: 0 <= i < |s| ==> IsTokenByte(s[i])
  }

  function Lower(b: byte): byte {
    if 65 <= b <= 90 then b + 32 else b
  }

  predicate EqualsIgnoreCase(s: seq<byte>, t: seq<byte>) {
    |s| == |t| && forall i :: 0 <= i < |s| ==> Lower(s[i]) == Lower(t[i])
  }

  predicate CrlfAt(s: seq<byte>, i: int) {
    0 <= i < |s| - 1 && s[i] == CR && s[i + 1] == LF
  }

  /** The offset of the first CRLF, if there is one. */
  function FirstCrlf(s: seq<byte>): (r: Option<nat>)
    ensures r.Some? ==> CrlfAt(s, r.value) && forall i :: 0 <= i < r.value ==> !CrlfAt(s, i)
    ensures r.None? ==> forall i :: !CrlfAt(s, i)
  {
    if |s| < 2 then None
    else if CrlfAt(s, 0) then Some(0)
    else
      match FirstCrlf(s[1..])
      case None =>
        assert forall i :: 0 < i < |s| - 1 ==> CrlfAt(s, i) == CrlfAt(s[1..], i - 1);
        None
      case Some(k) =>
        assert forall i :: 0 < i < |s| - 1 ==> CrlfAt(s, i) == CrlfAt(s[1..], i - 1);
        Some(k + 1)
  }

  /** A first CRLF is unique, and nothing appended to `s` can move it. */
  lemma FirstCrlfIs(s: seq<byte>, k: nat)
    requires CrlfAt(s, k) && forall i :: 0 <= i < k ==> !CrlfAt(s, i)
    ensures FirstCrlf(s) == Some(k)
  {
  }

  /** A buffer cut at its first CRLF: the line before it and the bytes after it. */
  function SplitLine(s: seq<byte>): (r: Option<(seq<byte>, seq<byte>)>)
    ensures r.Some? ==> s == r.value.0 + CRLF + r.value.1
    ensures r.Some? ==> |r.value.1| < |s|
  {
    match FirstCrlf(s)
    case None => None
    case Some(k) => Some((s[..k], s[k + 2..]))
  }

  lemma SplitLineExtends(s: seq<byte>, x: seq<byte>)
    requires SplitLine(s).Some?
    ensures SplitLine(s + x) == Some((SplitLine(s).value.0, SplitLine(s).value.1 + x))
  {
    var k := FirstCrlf(s).value;
    assert CrlfAt(s + x, k);
    forall i | 0 <= i < k ensures !CrlfAt(s + x, i) {
      assert !CrlfAt(s, i);
    }
    FirstCrlfIs(s + x, k);
    assert (s + x)[..k] == s[..k] && (s + x)[k + 2..] == s[k + 2..] + x;
  }

  /** A line without a carriage return ends at the CRLF printed after it. */
  lemma SplitPrintedLine(line: seq<byte>, rest: seq<byte>)
    requires CR !in line
    ensures SplitLine(line + CRLF + rest) == Some((line, rest))
  {
    var s := line + CRLF + rest;
    forall i | 0 <= i < |line| ensures !CrlfAt(s, i) {
      assert s[i] == line[i];
    }
    FirstCrlfIs(s, |line|);
    assert s[..|line|] == line && s[|line| + 2..] == rest;
  }

  /** The offset of the first occurrence of `b`, or the length when there is none. */
  function IndexOf(s: seq<byte>, b: byte): (r: nat)
    ensures r <= |s| && (forall i :: 0 <= i < r ==> s[i] != b) && (r < |s| ==> s[r] == b)
  {
    if s == [] || s[0] == b then 0 else 1 + IndexOf(s[1..], b)
  }

  lemma IndexOfIs(s: seq<byte>, b: byte, k: nat)
    requires k <= |s| && (forall i :: 0 <= i < k ==> s[i] != b) && (k < |s| ==> s[k] == b)
    ensures IndexOf(s, b) == k
  {
  }
}
