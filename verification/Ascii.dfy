/** Characters as bytes, and the byte classes of the readiness probe with their members spelled out. */
module Ascii {
  import opened Bytes

  /** Characters beyond ASCII do not occur. */
  function Code(c: char): byte {
    if c as int < 128 then c as int else 0
  }

  function Codes(s: string): (r: seq<byte>)
    ensures |r| == |s| && forall i :: 0 <= i < |s| ==> r[i] == Code(s[i])
  {
    seq(|s|, i requires 0 <= i < |s| => Code(s[i]))
  }

  const DIGITS: string := "0123456789"
  const UPPER_CASE: string := "ABCDEFGHIJKLMNOPQRSTUVWXYZ"
  const LOWER_CASE: string := "abcdefghijklmnopqrstuvwxyz"
  const MARKS: string := "!#$%&'*+-.^_`|~"
  const BLANKS: string := " \t\n\r\U{0C}"

  /** The character is one of these. */
  predicate Among(b: byte, s: string) {
    b in Codes(s)
  }

  lemma DigitsExactly(b: byte)
    ensures IsDigit(b) <==> Among(b, DIGITS)
  {
    if IsDigit(b) {
      assert Codes(DIGITS)[b - 48] == b;
    }
  }

  lemma AlphabetIsConsecutive(i: nat)
    requires i < 26
    ensures LOWER_CASE[i] as int == 97 + i && UPPER_CASE[i] as int == 65 + i
  {
  }

  lemma LettersExactly(b: byte)
    ensures 97 <= b <= 122 <==> Among(b, LOWER_CASE)
    ensures 65 <= b <= 90 <==> Among(b, UPPER_CASE)
    ensures IsAlphabetic(b) <==> Among(b, LOWER_CASE) || Among(b, UPPER_CASE)
  {
    forall i | 0 <= i < 26
      ensures Codes(LOWER_CASE)[i] == 97 + i && Codes(UPPER_CASE)[i] == 65 + i
    {
      AlphabetIsConsecutive(i);
    }
    hide LOWER_CASE, UPPER_CASE;
    if 65 <= b <= 90 {
      assert Codes(UPPER_CASE)[b - 65] == b;
    }
    if 97 <= b <= 122 {
      assert Codes(LOWER_CASE)[b - 97] == b;
    }
  }

  lemma BlanksExactly(b: byte)
    ensures IsWhitespace(b) <==> Among(b, BLANKS)
  {
    assert Codes(BLANKS) == [32, 9, 10, 13, 12];
  }

  lemma MarksExactly(b: byte)
    ensures IsTokenByte(b) <==> IsDigit(b) || IsAlphabetic(b) || Among(b, MARKS)
  {
    assert Codes(MARKS) == [33, 35, 36, 37, 38, 39, 42, 43, 45, 46, 94, 95, 96, 124, 126];
  }

  lemma HexDigitsExactly(b: byte)
    ensures IsHexDigit(b) <==> Among(b, DIGITS) || Among(b, "abcdef") || Among(b, "ABCDEF")
  {
    DigitsExactly(b);
    assert Codes("abcdef") == [97, 98, 99, 100, 101, 102] && Codes("ABCDEF") == [65, 66, 67, 68, 69, 70];
  }

  /** The two forms of one letter. */
  predicate Forms(b: byte, c: byte) {
    exists i :: 0 <= i < 26 && Code(LOWER_CASE[i]) == b && Code(UPPER_CASE[i]) == c
  }

  lemma FormsExactly(b: byte, c: byte)
    ensures Forms(b, c) <==> 97 <= b <= 122 && c == b - 32
  {
    forall i | 0 <= i < 26
      ensures Code(LOWER_CASE[i]) == 97 + i && Code(UPPER_CASE[i]) == 65 + i
    {
      AlphabetIsConsecutive(i);
    }
    if 97 <= b <= 122 && c == b - 32 {
      assert Code(LOWER_CASE[b - 97]) == b && Code(UPPER_CASE[b - 97]) == c;
    }
  }

  lemma CaseExactly(b: byte, c: byte)
    ensures Lower(b) == Lower(c) <==> b == c || Forms(b, c) || Forms(c, b)
  {
    FormsExactly(b, c);
    FormsExactly(c, b);
  }

  /** Texts that differ only in the case of letters. */
  lemma IgnoreCaseExactly(s: seq<byte>, t: seq<byte>)
    ensures EqualsIgnoreCase(s, t) <==>
            |s| == |t| && forall i :: 0 <= i < |s| ==> s[i] == t[i] || Forms(s[i], t[i]) || Forms(t[i], s[i])
  {
    if |s| == |t| {
      forall i | 0 <= i < |s|
        ensures Lower(s[i]) == Lower(t[i]) <==> s[i] == t[i] || Forms(s[i], t[i]) || Forms(t[i], s[i])
      {
        CaseExactly(s[i], t[i]);
      }
    }
  }

  /** The ASCII characters that are no controls are those from the space to the tilde. */
  lemma ControlsExactly(b: byte)
    ensures IsControl(b) <==> b < 128 && !(Code(' ') <= b <= Code('~'))
  {
  }

  lemma TokenExactly(s: seq<byte>)
    ensures IsToken(s) <==>
            s != [] && forall i :: 0 <= i < |s| ==>
              Among(s[i], DIGITS) || Among(s[i], LOWER_CASE) || Among(s[i], UPPER_CASE) || Among(s[i], MARKS)
  {
    forall i | 0 <= i < |s|
      ensures IsTokenByte(s[i]) <==>
              Among(s[i], DIGITS) || Among(s[i], LOWER_CASE) || Among(s[i], UPPER_CASE) || Among(s[i], MARKS)
    {
      DigitsExactly(s[i]);
      LettersExactly(s[i]);
      MarksExactly(s[i]);
    }
  }

  /** A text has ink when some character is not blank. */
  lemma InkExactly(s: seq<byte>)
    ensures HasInk(s) <==> exists i :: 0 <= i < |s| && !Among(s[i], BLANKS)
  {
    forall i | 0 <= i < |s| ensures IsWhitespace(s[i]) <==> Among(s[i], BLANKS) {
      BlanksExactly(s[i]);
    }
  }
}
