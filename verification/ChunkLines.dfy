/** Parsing one chunk-size line and one trailer line (src-tauri/src/main.rs:627-720). */
module ChunkLines {
  import opened Bytes
  import opened ChunkGrammar
  import opened Numerals

  /** How many leading bytes belong to a token. */
  function TokenLength(s: seq<byte>): (n: nat)
    ensures n <= |s| && (forall i :: 0 <= i < n ==> IsTokenByte(s[i])) && (n < |s| ==> !IsTokenByte(s[n]))
  {
    if s == [] || !IsTokenByte(s[0]) then 0 else 1 + TokenLength(s[1..])
  }

  /** The items up to the closing quote of a quoted string, and the number of bytes read, closing quote included. */
  function ParseQuoted(s: seq<byte>): (r: Option<(seq<QuotedItem>, nat)>)
    ensures r.Some? ==>
              && (forall i :: 0 <= i < |r.value.0| ==> ValidItem(r.value.0[i]))
              && 0 < r.value.1 <= |s| && s[..r.value.1] == PrintItems(r.value.0) + [QUOTE]
  {
    if s == [] then None
    else if s[0] == QUOTE then Some(([], 1))
    else if s[0] == BACKSLASH then
      if |s| == 1 || !(32 <= s[1] <= 126) then None
      else
        match ParseQuoted(s[2..])
        case None => None
        case Some(tail) =>
          assert s[..2 + tail.1] == s[..2] + s[2..][..tail.1];
          Some(([Escaped(s[1])] + tail.0, 2 + tail.1))
    else if IsControl(s[0]) then None
    else
      match ParseQuoted(s[1..])
      case None => None
      case Some(tail) =>
        assert s[..1 + tail.1] == s[..1] + s[1..][..tail.1];
        Some(([Plain(s[0])] + tail.0, 1 + tail.1))
  }

  predicate EndsExtension(s: seq<byte>) {
    s == [] || s[0] == SEMICOLON
  }

  /** Puts one parsed extension in front of those that follow. */
  function Prepend(e: Extension, tail: Option<seq<Extension>>): (r: Option<seq<Extension>>)
    requires ValidExtension(e) && (tail.Some? ==> ValidExtensions(tail.value))
    ensures r.Some? <==> tail.Some?
    ensures r.Some? ==>
              && ValidExtensions(r.value)
              && PrintExtensions(r.value) == PrintExtension(e) + PrintExtensions(tail.value)
  {
    match tail
    case None => None
    case Some(es) =>
      assert ([e] + es)[1..] == es;
      Some([e] + es)
  }

  /** Parses `*( ";" name [ "=" value ] )`. */
  function ParseExtensions(s: seq<byte>): (r: Option<seq<Extension>>)
    ensures r.Some? ==> ValidExtensions(r.value) && PrintExtensions(r.value) == s
    decreases |s|
  {
    if s == [] then Some([])
    else if s[0] != SEMICOLON then None
    else
      var n := TokenLength(s[1..]);
      if n == 0 then None
      else
        var name, after := s[1..][..n], s[1 + n..];
        assert s == [SEMICOLON] + name + after;
        if EndsExtension(after) then
          assert PrintExtension(Extension(name, NoValue)) == [SEMICOLON] + name;
          Prepend(Extension(name, NoValue), ParseExtensions(after))
        else if after[0] != EQUALS || |after| == 1 then None
        else
          assert s == [SEMICOLON] + name + [EQUALS] + after[1..];
          ParseValue(name, after[1..])
  }

  /** Parses a nonempty extension value and everything after it. */
  function ParseValue(name: seq<byte>, s: seq<byte>): (r: Option<seq<Extension>>)
    requires IsToken(name) && s != []
    ensures r.Some? ==> ValidExtensions(r.value) && PrintExtensions(r.value) == [SEMICOLON] + name + [EQUALS] + s
    decreases |s|
  {
    if s[0] != QUOTE then
      var n := TokenLength(s);
      if n == 0 || !EndsExtension(s[n..]) then None
      else
        TokenValueSplits(name, s, n);
        Prepend(Extension(name, TokenValue(s[..n])), ParseExtensions(s[n..]))
    else
      match ParseQuoted(s[1..])
      case None => None
      case Some((items, n)) =>
        if !EndsExtension(s[1 + n..]) then None
        else
          QuotedValueSplits(name, s, items, n);
          Prepend(Extension(name, QuotedValue(items)), ParseExtensions(s[1 + n..]))
  }

  lemma TokenValueSplits(name: seq<byte>, s: seq<byte>, n: nat)
    requires n <= |s|
    ensures [SEMICOLON] + name + [EQUALS] + s == PrintExtension(Extension(name, TokenValue(s[..n]))) + s[n..]
  {
    assert s == s[..n] + s[n..];
  }

  lemma QuotedValueSplits(name: seq<byte>, s: seq<byte>, items: seq<QuotedItem>, n: nat)
    requires s != [] && s[0] == QUOTE && n <= |s| - 1 && s[1..][..n] == PrintItems(items) + [QUOTE]
    ensures [SEMICOLON] + name + [EQUALS] + s == PrintExtension(Extension(name, QuotedValue(items))) + s[1 + n..]
  {
    assert s == [QUOTE] + s[1..][..n] + s[1 + n..];
  }

  lemma {:induction false} TokenLengthIs(t: seq<byte>, rest: seq<byte>)
    requires forall i :: 0 <= i < |t| ==> IsTokenByte(t[i])
    requires rest == [] || !IsTokenByte(rest[0])
    ensures TokenLength(t + rest) == |t|
  {
    if t == [] {
      assert t + rest == rest;
    } else {
      assert (t + rest)[1..] == t[1..] + rest;
      TokenLengthIs(t[1..], rest);
    }
  }

  lemma {:induction false} QuotedRoundTrip(items: seq<QuotedItem>, rest: seq<byte>)
    requires forall i :: 0 <= i < |items| ==> ValidItem(items[i])
    ensures ParseQuoted(PrintItems(items) + [QUOTE] + rest) == Some((items, |PrintItems(items)| + 1))
  {
    var s := PrintItems(items) + [QUOTE] + rest;
    if items != [] {
      var tail := PrintItems(items[1..]) + [QUOTE] + rest;
      QuotedRoundTrip(items[1..], rest);
      assert ValidItem(items[0]);
      assert s == (if items[0].Plain? then [items[0].b] else [BACKSLASH, items[0].b]) + tail;
      assert s[|s| - |tail|..] == tail;
      assert [items[0]] + items[1..] == items;
    }
  }

  lemma PrintedExtensionsEnd(es: seq<Extension>)
    ensures EndsExtension(PrintExtensions(es))
  {
  }

  /** Every list of valid extensions is read back from its printed form. */
  lemma {:induction false} ExtensionsRoundTrip(es: seq<Extension>)
    requires ValidExtensions(es)
    ensures ParseExtensions(PrintExtensions(es)) == Some(es)
  {
    if es != [] {
      ExtensionsRoundTrip(es[1..]);
      assert ValidExtension(es[0]);
      PrintedExtensionsEnd(es[1..]);
      FirstExtension(es[0], PrintExtensions(es[1..]));
      assert [es[0]] + es[1..] == es;
    }
  }

  lemma FirstExtension(e: Extension, tail: seq<byte>)
    requires ValidExtension(e) && EndsExtension(tail)
    ensures ParseExtensions(PrintExtension(e) + tail) == Prepend(e, ParseExtensions(tail))
  {
    match e.value
    case NoValue =>
      assert PrintExtension(e) + tail == [SEMICOLON] + e.name + tail;
      BareNameParses(e.name, tail);
    case TokenValue(token) =>
      assert PrintExtension(e) + tail == [SEMICOLON] + e.name + ([EQUALS] + (token + tail));
      AssignedNameParses(e.name, token + tail);
      TokenValueParses(e.name, token, tail);
    case QuotedValue(items) =>
      var value := [QUOTE] + PrintItems(items) + [QUOTE] + tail;
      assert PrintExtension(e) + tail == [SEMICOLON] + e.name + ([EQUALS] + value);
      AssignedNameParses(e.name, value);
      QuotedValueParses(e.name, items, tail);
  }

  lemma BareNameParses(name: seq<byte>, tail: seq<byte>)
    requires IsToken(name) && EndsExtension(tail)
    ensures ParseExtensions([SEMICOLON] + name + tail) == Prepend(Extension(name, NoValue), ParseExtensions(tail))
  {
    NamedExtension(name, tail);
  }

  lemma AssignedNameParses(name: seq<byte>, value: seq<byte>)
    requires IsToken(name) && value != []
    ensures ParseExtensions([SEMICOLON] + name + ([EQUALS] + value)) == ParseValue(name, value)
  {
    NamedExtension(name, [EQUALS] + value);
    assert ([EQUALS] + value)[1..] == value;
  }

  lemma TokenValueParses(name: seq<byte>, token: seq<byte>, tail: seq<byte>)
    requires IsToken(name) && IsToken(token) && EndsExtension(tail)
    ensures ParseValue(name, token + tail) == Prepend(Extension(name, TokenValue(token)), ParseExtensions(tail))
  {
    TokenLengthIs(token, tail);
    assert (token + tail)[..|token|] == token && (token + tail)[|token|..] == tail;
  }

  lemma QuotedValueParses(name: seq<byte>, items: seq<QuotedItem>, tail: seq<byte>)
    requires IsToken(name) && EndsExtension(tail)
    requires forall i :: 0 <= i < |items| ==> ValidItem(items[i])
    ensures ParseValue(name, [QUOTE] + PrintItems(items) + [QUOTE] + tail)
         == Prepend(Extension(name, QuotedValue(items)), ParseExtensions(tail))
  {
    var value := [QUOTE] + PrintItems(items) + [QUOTE] + tail;
    QuotedRoundTrip(items, tail);
    assert value[1..] == PrintItems(items) + [QUOTE] + tail;
    assert value[1 + (|PrintItems(items)| + 1)..] == tail;
  }

  /** The parser finds the name that was printed, and what was printed after it. */
  lemma NamedExtension(name: seq<byte>, after: seq<byte>)
    requires IsToken(name) && (after == [] || !IsTokenByte(after[0]))
    ensures var s := [SEMICOLON] + name + after;
            TokenLength(s[1..]) == |name| && s[1..][..|name|] == name && s[1 + |name|..] == after
  {
    TokenLengthIs(name, after);
    assert ([SEMICOLON] + name + after)[1..] == name + after;
  }

  /** Printed extensions hold no carriage return. */
  lemma {:induction false} ItemsHaveNoCr(items: seq<QuotedItem>)
    requires forall i :: 0 <= i < |items| ==> ValidItem(items[i])
    ensures CR !in PrintItems(items)
  {
    if items != [] {
      assert ValidItem(items[0]);
      ItemsHaveNoCr(items[1..]);
    }
  }

  lemma {:induction false} ExtensionsHaveNoCr(es: seq<Extension>)
    requires ValidExtensions(es)
    ensures CR !in PrintExtensions(es)
  {
    if es != [] {
      assert ValidExtension(es[0]);
      if es[0].value.QuotedValue? {
        ItemsHaveNoCr(es[0].value.items);
      }
      ExtensionsHaveNoCr(es[1..]);
    }
  }

  /** The syntax tree of a chunk-size line. */
  function ParseSizeLine(line: seq<byte>): (r: Option<SizeLine>)
    ensures r.Some? ==> ValidSizeLine(r.value) && PrintSizeLine(r.value) == line
  {
    var n := IndexOf(line, SEMICOLON);
    if |line| > METADATA_CAP || !ValidDigits(line[..n]) then None
    else
      match ParseExtensions(line[n..])
      case None => None
      case Some(es) =>
        assert line == line[..n] + line[n..];
        Some(SizeLine(line[..n], es))
  }

  lemma SizeLineRoundTrip(l: SizeLine)
    requires ValidSizeLine(l)
    ensures ParseSizeLine(PrintSizeLine(l)) == Some(l)
    ensures CR !in PrintSizeLine(l)
  {
    var line := PrintSizeLine(l);
    ExtensionsRoundTrip(l.extensions);
    ExtensionsHaveNoCr(l.extensions);
    PrintedExtensionsEnd(l.extensions);
    assert forall i :: 0 <= i < |l.digits| ==> line[i] == l.digits[i] && IsHexDigit(l.digits[i]);
    IndexOfIs(line, SEMICOLON, |l.digits|);
    assert line[|l.digits|..] == PrintExtensions(l.extensions);
  }

  /** The syntax tree of a trailer line. */
  function ParseTrailer(line: seq<byte>): (r: Option<Trailer>)
    ensures r.Some? ==> ValidTrailer(r.value) && PrintTrailer(r.value) == line
  {
    var n := IndexOf(line, COLON);
    if n == |line| then None
    else
      var t := Trailer(line[..n], line[n + 1..]);
      assert line == t.name + [COLON] + t.value;
      if !IsToken(t.name) || EqualsIgnoreCase(t.name, CONTENT_LENGTH) || EqualsIgnoreCase(t.name, TRANSFER_ENCODING) then None
      else if exists i :: 0 <= i < |t.value| && t.value[i] != TAB && IsControl(t.value[i]) then None
      else Some(t)
  }

  lemma TrailerRoundTrip(t: Trailer)
    requires ValidTrailer(t)
    ensures ParseTrailer(PrintTrailer(t)) == Some(t)
    ensures CR !in PrintTrailer(t) && PrintTrailer(t) != []
  {
    var line := PrintTrailer(t);
    assert forall i :: 0 <= i < |t.name| ==> line[i] == t.name[i] && IsTokenByte(t.name[i]);
    IndexOfIs(line, COLON, |t.name|);
    assert line[..|t.name|] == t.name && line[|t.name| + 1..] == t.value;
  }
}
