/** Numerals, what they denote digit by digit, and the functions that read them (src-tauri/src/main.rs:690-706, 874-880). */
module Numerals {
  import opened Bytes
  import opened Ascii

  const HEX: string := "0123456789abcdef"

  function Zeros(k: nat): seq<byte> {
    seq(k, i => Code('0'))
  }

  // ---------- Hexadecimal ----------

  /** The shortest numeral of `n`, most significant digit first; zero has no digits. */
  function Hexadecimal(n: nat): seq<byte> {
    if n == 0 then [] else Hexadecimal(n / 16) + [Code(HEX[n % 16])]
  }

  /** The numeral of `n` behind any number of zeros, in upper or lower case. */
  ghost predicate HexDenotes(s: seq<byte>, n: nat) {
    exists k :: EqualsIgnoreCase(s, Zeros(k) + Hexadecimal(n))
  }

  function HexDigitValue(b: byte): (v: nat)
    requires IsHexDigit(b)
    ensures v < 16
  {
    if IsDigit(b) then b - 48 else if b <= 70 then b - 55 else b - 87
  }

  predicate HexDigits(s: seq<byte>) {
    forall i :: 0 <= i < |s| ==> IsHexDigit(s[i])
  }

  function HexValue(s: seq<byte>): nat
    requires HexDigits(s)
  {
    if s == [] then 0 else HexValue(s[..|s| - 1]) * 16 + HexDigitValue(s[|s| - 1])
  }

  /** A digit is worth its place in the alphabet, and only it. */
  lemma HexDigitExactly(b: byte, v: nat)
    requires v < 16
    ensures Lower(b) == Lower(Code(HEX[v])) <==> IsHexDigit(b) && HexDigitValue(b) == v
  {
  }

  lemma ShortenDigits(s: seq<byte>, t: seq<byte>)
    requires s != [] && t != []
    ensures EqualsIgnoreCase(s, t) <==>
            EqualsIgnoreCase(s[..|s| - 1], t[..|t| - 1]) && Lower(s[|s| - 1]) == Lower(t[|t| - 1])
  {
    if |s| == |t| && EqualsIgnoreCase(s[..|s| - 1], t[..|t| - 1]) && Lower(s[|s| - 1]) == Lower(t[|t| - 1]) {
      forall i | 0 <= i < |s| ensures Lower(s[i]) == Lower(t[i]) {
        if i < |s| - 1 {
          assert s[i] == s[..|s| - 1][i] && t[i] == t[..|t| - 1][i];
        }
      }
    }
  }

  /** A zero or a numeral, without its last digit. */
  lemma LastHexDigit(k: nat, n: nat)
    requires 0 < k + n
    ensures var t := Zeros(k) + Hexadecimal(n);
            && t != [] && t[|t| - 1] == Code(HEX[n % 16])
            && t[..|t| - 1] == (if n == 0 then Zeros(k - 1) else Zeros(k)) + Hexadecimal(n / 16)
  {
    var t := Zeros(k) + Hexadecimal(n);
    if n == 0 {
      assert t == Zeros(k - 1) + [Code('0')];
      assert Zeros(k - 1) + Hexadecimal(0) == Zeros(k - 1);
    } else {
      assert t == Zeros(k) + Hexadecimal(n / 16) + [Code(HEX[n % 16])];
    }
  }

  lemma {:induction false} HexReads(s: seq<byte>, k: nat, n: nat)
    requires EqualsIgnoreCase(s, Zeros(k) + Hexadecimal(n))
    ensures HexDigits(s) && HexValue(s) == n
  {
    if s != [] {
      var t := Zeros(k) + Hexadecimal(n);
      LastHexDigit(k, n);
      ShortenDigits(s, t);
      HexDigitExactly(s[|s| - 1], n % 16);
      HexReads(s[..|s| - 1], if n == 0 then k - 1 else k, n / 16);
      assert s == s[..|s| - 1] + [s[|s| - 1]];
    }
  }

  lemma {:induction false} HexIsRead(s: seq<byte>) returns (k: nat)
    requires HexDigits(s)
    ensures EqualsIgnoreCase(s, Zeros(k) + Hexadecimal(HexValue(s)))
  {
    if s == [] {
      k := 0;
    } else {
      k := HexIsRead(s[..|s| - 1]);
      k := HexGrows(s, k);
    }
  }

  lemma HexGrows(s: seq<byte>, before: nat) returns (k: nat)
    requires s != [] && HexDigits(s)
    requires EqualsIgnoreCase(s[..|s| - 1], Zeros(before) + Hexadecimal(HexValue(s[..|s| - 1])))
    ensures EqualsIgnoreCase(s, Zeros(k) + Hexadecimal(HexValue(s)))
  {
    var n := HexValue(s);
    HexDigitExactly(s[|s| - 1], n % 16);
    assert n / 16 == HexValue(s[..|s| - 1]);
    hide Hexadecimal, Zeros, EqualsIgnoreCase, HexValue, HexDigitValue, HexDigits, Lower, HEX;
    k := if n == 0 then before + 1 else before;
    LastHexDigit(k, n);
    ShortenDigits(s, Zeros(k) + Hexadecimal(n));
  }

  /** The value of a string of digits is the number it denotes, and no other. */
  lemma HexExactly(s: seq<byte>, n: nat)
    ensures HexDenotes(s, n) <==> HexDigits(s) && HexValue(s) == n
  {
    if HexDigits(s) && HexValue(s) == n {
      var k := HexIsRead(s);
    }
    if k :| EqualsIgnoreCase(s, Zeros(k) + Hexadecimal(n)) {
      HexReads(s, k, n);
    }
  }

  // ---------- Decimal ----------

  /** The shortest numeral of `n`; zero has no digits. */
  function DecimalNumeral(n: nat): seq<byte> {
    if n == 0 then [] else DecimalNumeral(n / 10) + [Code(DIGITS[n % 10])]
  }

  /** The numeral of `n` behind any number of zeros. */
  ghost predicate DecimalDenotes(s: seq<byte>, n: nat) {
    exists k :: s == Zeros(k) + DecimalNumeral(n)
  }

  predicate AllDigits(s: seq<byte>) {
    forall i :: 0 <= i < |s| ==> IsDigit(s[i])
  }

  function Decimal(s: seq<byte>): nat
    requires AllDigits(s)
  {
    if s == [] then 0 else Decimal(s[..|s| - 1]) * 10 + (s[|s| - 1] - 48)
  }

  lemma DigitExactly(b: byte, v: nat)
    requires v < 10
    ensures b == Code(DIGITS[v]) <==> IsDigit(b) && b - 48 == v
  {
  }

  lemma LastDigit(k: nat, n: nat)
    requires 0 < k + n
    ensures var t := Zeros(k) + DecimalNumeral(n);
            && t != [] && t[|t| - 1] == Code(DIGITS[n % 10])
            && t[..|t| - 1] == (if n == 0 then Zeros(k - 1) else Zeros(k)) + DecimalNumeral(n / 10)
  {
    var t := Zeros(k) + DecimalNumeral(n);
    if n == 0 {
      assert t == Zeros(k - 1) + [Code('0')];
      assert Zeros(k - 1) + DecimalNumeral(0) == Zeros(k - 1);
    } else {
      assert t == Zeros(k) + DecimalNumeral(n / 10) + [Code(DIGITS[n % 10])];
    }
  }

  lemma {:induction false} DecimalReads(k: nat, n: nat)
    ensures var s := Zeros(k) + DecimalNumeral(n); AllDigits(s) && Decimal(s) == n
    decreases k + n
  {
    var s := Zeros(k) + DecimalNumeral(n);
    if s != [] {
      LastDigit(k, n);
      DigitExactly(s[|s| - 1], n % 10);
      DecimalReads(if n == 0 then k - 1 else k, n / 10);
      assert s == s[..|s| - 1] + [s[|s| - 1]];
    }
  }

  lemma {:induction false} DecimalIsRead(s: seq<byte>) returns (k: nat)
    requires AllDigits(s)
    ensures s == Zeros(k) + DecimalNumeral(Decimal(s))
  {
    if s == [] {
      k := 0;
    } else {
      k := DecimalIsRead(s[..|s| - 1]);
      k := DecimalGrows(s, k);
    }
  }

  lemma SameDigits(s: seq<byte>, t: seq<byte>)
    requires s != [] && t != [] && s[..|s| - 1] == t[..|t| - 1] && s[|s| - 1] == t[|t| - 1]
    ensures s == t
  {
    assert s == s[..|s| - 1] + [s[|s| - 1]] && t == t[..|t| - 1] + [t[|t| - 1]];
  }

  lemma DecimalGrows(s: seq<byte>, before: nat) returns (k: nat)
    requires s != [] && AllDigits(s)
    requires s[..|s| - 1] == Zeros(before) + DecimalNumeral(Decimal(s[..|s| - 1]))
    ensures s == Zeros(k) + DecimalNumeral(Decimal(s))
  {
    var n := Decimal(s);
    DigitExactly(s[|s| - 1], n % 10);
    assert n / 10 == Decimal(s[..|s| - 1]);
    hide DecimalNumeral, Zeros, Decimal, AllDigits, IsDigit, DIGITS, Code;
    k := if n == 0 then before + 1 else before;
    LastDigit(k, n);
    SameDigits(s, Zeros(k) + DecimalNumeral(n));
  }

  lemma DecimalExactly(s: seq<byte>, n: nat)
    ensures DecimalDenotes(s, n) <==> AllDigits(s) && Decimal(s) == n
  {
    if AllDigits(s) && Decimal(s) == n {
      var k := DecimalIsRead(s);
    }
    if k :| s == Zeros(k) + DecimalNumeral(n) {
      DecimalReads(k, n);
    }
  }
}
