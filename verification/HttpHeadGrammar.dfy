/**
 The language of acceptable response heads, as a syntax tree with a printer, and that `Head` decides it
 (src-tauri/src/main.rs:818-877).
 */
module HttpHeadGrammar {
  import opened Bytes
  import opened Ascii
  import opened ChunkGrammar
  import opened Numerals
  import opened HttpHead

  /** Blanks, the version, blanks, a code, and anything that does not prolong the code. */
  datatype StatusLine = StatusLine(indent: seq<byte>, gap: seq<byte>, code: nat, rest: seq<byte>)
  datatype Field = Field(name: seq<byte>, value: seq<byte>)
  datatype ResponseHead = ResponseHead(status: StatusLine, fields: seq<Field>)

  predicate Blank(s: seq<byte>) {
    forall i :: 0 <= i < |s| ==> IsWhitespace(s[i])
  }

  predicate Solid(s: seq<byte>) {
    forall i :: 0 <= i < |s| ==> !IsWhitespace(s[i])
  }

  predicate Parts(s: seq<byte>) {
    s == [] || IsWhitespace(s[0])
  }

  predicate OneLine(s: seq<byte>) {
    FirstCrlf(s).None?
  }

  predicate Success(code: nat) {
    200 <= code < 300
  }

  function PrintStatus(l: StatusLine): seq<byte> {
    l.indent + (Codes("HTTP/1.1") + (l.gap + (DecimalNumeral(l.code) + l.rest)))
  }

  predicate ValidStatus(l: StatusLine) {
    Success(l.code) && Blank(l.indent) && Blank(l.gap) && l.gap != [] && Parts(l.rest) && OneLine(PrintStatus(l))
  }

  function PrintField(f: Field): seq<byte> {
    f.name + [COLON] + f.value
  }

  predicate WellFormed(f: Field) {
    IsToken(f.name) && forall i :: 0 <= i < |f.value| ==> f.value[i] == TAB || !IsControl(f.value[i])
  }

  predicate AllWellFormed(fields: seq<Field>) {
    forall i :: 0 <= i < |fields| ==> WellFormed(fields[i])
  }

  function FieldLines(fields: seq<Field>): (r: seq<seq<byte>>)
    ensures |r| == |fields| && forall i :: 0 <= i < |r| ==> r[i] == PrintField(fields[i])
  {
    seq(|fields|, i requires 0 <= i < |fields| => PrintField(fields[i]))
  }

  /** Lines with a CRLF between any two of them. */
  function Join(lines: seq<seq<byte>>): seq<byte>
    requires lines != []
  {
    if |lines| == 1 then lines[0] else lines[0] + CRLF + Join(lines[1..])
  }

  function PrintHead(h: ResponseHead): seq<byte> {
    Join([PrintStatus(h.status)] + FieldLines(h.fields))
  }

  /** The values of the fields with this name, in order; case does not matter in names. */
  function ValuesOf(fields: seq<Field>, name: seq<byte>): seq<seq<byte>> {
    if fields == [] then []
    else
      var before, last := ValuesOf(fields[..|fields| - 1], name), fields[|fields| - 1];
      if EqualsIgnoreCase(last.name, name) then before + [Trim(last.value)] else before
  }

  /** White-space characters, one after the other. */
  predicate Spaces(s: seq<byte>)
    decreases |s|
  {
    s == [] || (LeadingSpace(s) != 0 && Spaces(s[LeadingSpace(s)..]))
  }

  /** This word between white space, in upper or lower case. */
  ghost predicate IsWord(value: seq<byte>, word: string) {
    exists before, name, after ::
      Spaces(before) && EqualsIgnoreCase(name, Codes(word)) && Spaces(after) && value == before + (name + after)
  }

  /** A word, perhaps with a semicolon and any parameters behind it. */
  ghost predicate IsMediaType(value: seq<byte>, word: string) {
    IsWord(value, word) || exists name, parameters :: IsWord(name, word) && value == name + [Code(';')] + parameters
  }

  /** What the length and coding fields have to say for each framing. */
  ghost predicate Frames(lengths: seq<seq<byte>>, encodings: seq<seq<byte>>, framing: Framing) {
    match framing
    case Chunked => lengths == [] && |encodings| == 1 && IsWord(encodings[0], "chunked")
    case Length(n) => encodings == [] && |lengths| == 1 && DecimalDenotes(lengths[0], n) && 0 < n <= BODY_CAP
    case UntilClose => lengths == [] && encodings == []
  }

  /** The one media type is HTML, and the framing fields announce `framing`. */
  ghost predicate Announces(fields: seq<Field>, framing: Framing) {
    var types := ValuesOf(fields, Codes("content-type"));
    && |types| == 1 && IsMediaType(types[0], "text/html")
    && Frames(ValuesOf(fields, Codes("content-length")), ValuesOf(fields, Codes("transfer-encoding")), framing)
  }

  ghost predicate ValidHead(h: ResponseHead, framing: Framing) {
    ValidStatus(h.status) && AllWellFormed(h.fields) && Announces(h.fields, framing) && ValidUtf8(PrintHead(h))
  }

  /** The words and characters of the deciding functions. */
  lemma Words()
    ensures CR == Code('\r') && LF == Code('\n') && CRLF == Codes("\r\n") && TAB == Code('\t')
    ensures SEMICOLON == Code(';') && EQUALS == Code('=') && QUOTE == Code('\"') && BACKSLASH == Code('\\')
    ensures COLON == Code(':') && COMMA == Code(',')
    ensures HTTP_1_1 == Codes("HTTP/1.1") && TEXT_HTML == Codes("text/html") && CHUNKED == Codes("chunked")
    ensures CONTENT_TYPE == Codes("content-type") && CONTENT_LENGTH == Codes("content-length")
    ensures TRANSFER_ENCODING == Codes("transfer-encoding")
  {
  }

  // ---------- Lines ----------

  lemma SplitOneLine(line: seq<byte>, rest: seq<byte>)
    requires OneLine(line)
    ensures SplitLine(line + CRLF + rest) == Some((line, rest))
  {
    var s := line + CRLF + rest;
    forall i | 0 <= i < |line| ensures !CrlfAt(s, i) {
      assert !CrlfAt(line, i);
    }
    FirstCrlfIs(s, |line|);
    assert s[..|line|] == line && s[|line| + 2..] == rest;
  }

  lemma {:induction false} JoinedSplits(lines: seq<seq<byte>>)
    requires lines != [] && forall i :: 0 <= i < |lines| ==> OneLine(lines[i])
    ensures SplitLines(Join(lines)) == lines
  {
    if |lines| == 1 {
      assert SplitLine(lines[0]).None?;
    } else {
      SplitOneLine(lines[0], Join(lines[1..]));
      JoinedSplits(lines[1..]);
    }
  }

  lemma {:induction false} SplitJoins(s: seq<byte>)
    ensures Join(SplitLines(s)) == s && forall i :: 0 <= i < |SplitLines(s)| ==> OneLine(SplitLines(s)[i])
    decreases |s|
  {
    var split := SplitLine(s);
    if split.Some? {
      var line, rest := split.value.0, split.value.1;
      SplitJoins(rest);
      assert SplitLines(s)[1..] == SplitLines(rest);
      FirstLineIsOne(s);
    }
  }

  lemma FirstLineIsOne(s: seq<byte>)
    requires SplitLine(s).Some?
    ensures OneLine(SplitLine(s).value.0)
  {
    var line := SplitLine(s).value.0;
    if FirstCrlf(line).Some? {
      assert CrlfAt(s, FirstCrlf(line).value);
    }
  }

  // ---------- The status line ----------

  lemma {:induction false} SkipBlank(s: seq<byte>, t: seq<byte>)
    requires Blank(s) && (t == [] || !IsWhitespace(t[0]))
    ensures SkipSpace(s + t) == t
  {
    if s == [] {
      assert s + t == t;
    } else {
      assert (s + t)[1..] == s[1..] + t;
      SkipBlank(s[1..], t);
    }
  }

  lemma {:induction false} SkipSplits(s: seq<byte>) returns (blank: seq<byte>)
    ensures Blank(blank) && s == blank + SkipSpace(s)
    ensures SkipSpace(s) == [] || !IsWhitespace(SkipSpace(s)[0])
    ensures s != [] && IsWhitespace(s[0]) ==> blank != []
  {
    blank := [];
    if s != [] && IsWhitespace(s[0]) {
      blank := SkipSplits(s[1..]);
      blank := [s[0]] + blank;
    }
  }

  lemma {:induction false} FieldLengthIs(s: seq<byte>, t: seq<byte>)
    requires Solid(s) && Parts(t)
    ensures FieldLength(s + t) == |s|
  {
    if s == [] {
      assert s + t == t;
    } else {
      assert (s + t)[1..] == s[1..] + t;
      FieldLengthIs(s[1..], t);
    }
  }

  lemma {:induction false} FieldLengthSplits(s: seq<byte>)
    ensures Solid(s[..FieldLength(s)]) && Parts(s[FieldLength(s)..])
  {
    if s != [] && !IsWhitespace(s[0]) {
      FieldLengthSplits(s[1..]);
      assert s[..FieldLength(s)] == [s[0]] + s[1..][..FieldLength(s[1..])];
      assert s[FieldLength(s)..] == s[1..][FieldLength(s[1..])..];
    }
  }

  /** A solid field between blanks is the next field. */
  lemma NextFieldIs(blank: seq<byte>, field: seq<byte>, rest: seq<byte>)
    requires Blank(blank) && Solid(field) && field != [] && Parts(rest)
    ensures NextField(blank + (field + rest)) == (field, rest)
  {
    assert (field + rest)[0] == field[0];
    SkipBlank(blank, field + rest);
    FieldLengthIs(field, rest);
  }

  lemma NextFieldSplits(s: seq<byte>) returns (blank: seq<byte>)
    ensures var (field, rest) := NextField(s);
            Blank(blank) && Solid(field) && Parts(rest) && s == blank + (field + rest)
    ensures s != [] && IsWhitespace(s[0]) ==> blank != []
  {
    blank := SkipSplits(s);
    FieldLengthSplits(SkipSpace(s));
  }

  /** A code of three digits is its numeral. */
  lemma ThreeDigits(code: nat)
    requires Success(code)
    ensures var s := DecimalNumeral(code); |s| == 3 && AllDigits(s) && Solid(s) && Decimal(s) == code
  {
    var s := DecimalNumeral(code);
    DecimalReads(0, code);
    assert Zeros(0) + s == s;
    ShortNumeral(code);
    hide DecimalNumeral, Decimal, Zeros;
    assert forall i :: 0 <= i < |s| ==> IsDigit(s[i]);
  }

  lemma ShortNumeral(n: nat)
    requires n < 1000
    ensures |DecimalNumeral(n)| == if n == 0 then 0 else if n < 10 then 1 else if n < 100 then 2 else 3
  {
    hide Code, DIGITS;
    if n >= 10 {
      ShortNumeral(n / 10);
    }
  }

  lemma ThreeDigitsRead(s: seq<byte>)
    requires AllDigits(s) && |s| == 3 && Success(Decimal(s))
    ensures DecimalNumeral(Decimal(s)) == s
  {
    var k := DecimalIsRead(s);
    ThreeDigits(Decimal(s));
    assert k == 0;
  }

  lemma StatusReads(l: StatusLine)
    requires ValidStatus(l)
    ensures SuccessfulStatus(PrintStatus(l))
  {
    var code := DecimalNumeral(l.code);
    Words();
    ThreeDigits(l.code);
    NextFieldIs(l.indent, HTTP_1_1, l.gap + (code + l.rest));
    NextFieldIs(l.gap, code, l.rest);
  }

  lemma StatusParses(line: seq<byte>) returns (l: StatusLine)
    requires SuccessfulStatus(line) && OneLine(line)
    ensures ValidStatus(l) && PrintStatus(l) == line
  {
    var (version, behind) := NextField(line);
    var (code, rest) := NextField(behind);
    var indent := NextFieldSplits(line);
    var gap := NextFieldSplits(behind);
    Words();
    l := StatusLine(indent, gap, Decimal(code), rest);
    ThreeDigitsRead(code);
  }

  // ---------- Trimming ----------

  lemma SpaceStaysLeading(s: seq<byte>, t: seq<byte>)
    requires LeadingSpace(s) != 0
    ensures LeadingSpace(s + t) == LeadingSpace(s)
  {
  }

  lemma SpaceIsTrailing(s: seq<byte>, c: seq<byte>)
    requires c != [] && LeadingSpace(c) == |c|
    ensures TrailingSpace(s + c) == |c|
  {
  }

  lemma NothingIsSpaces()
    ensures Spaces([])
  {
  }

  lemma LeadingIsSpaces(s: seq<byte>)
    requires LeadingSpace(s) != 0
    ensures Spaces(s[..LeadingSpace(s)])
  {
    var c := s[..LeadingSpace(s)];
    assert LeadingSpace(c) == |c| && c[|c|..] == [];
  }

  lemma TrailingIsSpaces(s: seq<byte>)
    requires TrailingSpace(s) != 0
    ensures Spaces(s[|s| - TrailingSpace(s)..])
  {
    var c := s[|s| - TrailingSpace(s)..];
    assert LeadingSpace(c) == |c| && c[|c|..] == [];
  }

  lemma SpacesStepBack(s: seq<byte>) returns (n: nat)
    requires Spaces(s) && s != []
    ensures 0 < n <= |s| && Spaces(s[..|s| - n]) && LeadingSpace(s[|s| - n..]) == n
    decreases |s|
  {
    var k := LeadingSpace(s);
    if k == |s| {
      n := k;
    } else {
      n := SpacesStepBack(s[k..]);
      var front := s[..|s| - n];
      assert front[k..] == s[k..][..|s| - k - n] && s[|s| - n..] == s[k..][|s| - k - n..];
      assert LeadingSpace(front) == k;
    }
  }

  lemma {:induction false} TrimStartDrops(before: seq<byte>, t: seq<byte>)
    requires Spaces(before) && LeadingSpace(t) == 0
    ensures TrimStart(before + t) == t
    decreases |before|
  {
    if before == [] {
      assert before + t == t;
    } else {
      var k := LeadingSpace(before);
      SpaceStaysLeading(before, t);
      assert (before + t)[k..] == before[k..] + t;
      TrimStartDrops(before[k..], t);
    }
  }

  lemma {:induction false} TrimEndDrops(t: seq<byte>, after: seq<byte>)
    requires Spaces(after) && TrailingSpace(t) == 0
    ensures TrimEnd(t + after) == t
    decreases |after|
  {
    if after == [] {
      assert t + after == t;
    } else {
      var n := SpacesStepBack(after);
      var k := |after| - n;
      assert t + after == (t + after[..k]) + after[k..];
      SpaceIsTrailing(t + after[..k], after[k..]);
      TrimEndDrops(t, after[..k]);
    }
  }

  lemma {:induction false} TrimStartSplits(s: seq<byte>) returns (before: seq<byte>)
    ensures Spaces(before) && s == before + TrimStart(s) && LeadingSpace(TrimStart(s)) == 0
    decreases |s|
  {
    hide LeadingSpace, Spaces;
    NothingIsSpaces();
    var n := LeadingSpace(s);
    before := [];
    if n != 0 {
      before := TrimStartSplits(s[n..]);
      LeadingIsSpaces(s);
      SpacesJoin(s[..n], before);
      before := s[..n] + before;
    }
  }

  lemma {:induction false} TrimEndSplits(s: seq<byte>) returns (after: seq<byte>)
    ensures Spaces(after) && s == TrimEnd(s) + after && TrailingSpace(TrimEnd(s)) == 0
    decreases |s|
  {
    hide TrailingSpace, Spaces;
    NothingIsSpaces();
    var n := TrailingSpace(s);
    after := [];
    if n != 0 {
      var k := |s| - n;
      after := TrimEndSplits(s[..k]);
      TrailingIsSpaces(s);
      SpacesJoin(after, s[k..]);
      after := after + s[k..];
    }
  }

  lemma {:induction false} SpacesJoin(a: seq<byte>, b: seq<byte>)
    requires Spaces(a) && Spaces(b)
    ensures Spaces(a + b)
    decreases |a|
  {
    if a == [] {
      assert a + b == b;
    } else {
      var k := LeadingSpace(a);
      SpaceStaysLeading(a, b);
      assert (a + b)[k..] == a[k..] + b;
      SpacesJoin(a[k..], b);
    }
  }

  lemma PrefixLeads(t: seq<byte>, after: seq<byte>)
    requires LeadingSpace(t + after) == 0
    ensures LeadingSpace(t) == 0
  {
  }

  lemma TextLeads(t: seq<byte>, after: seq<byte>)
    requires t != [] && LeadingSpace(t) == 0 && Spaces(after)
    ensures LeadingSpace(t + after) == 0
  {
  }

  /** `t` is left of `s` without white space on either side. */
  predicate Trimmed(s: seq<byte>, before: seq<byte>, t: seq<byte>, after: seq<byte>) {
    && Spaces(before) && Spaces(after) && s == before + (t + after)
    && LeadingSpace(t) == 0 && TrailingSpace(t) == 0
  }

  lemma TrimSplits(s: seq<byte>) returns (before: seq<byte>, after: seq<byte>)
    ensures Trimmed(s, before, Trim(s), after)
  {
    before := TrimStartSplits(s);
    after := TrimEndSplits(TrimStart(s));
    PrefixLeads(Trim(s), after);
  }

  lemma TrimDrops(s: seq<byte>, before: seq<byte>, t: seq<byte>, after: seq<byte>)
    requires Trimmed(s, before, t, after)
    ensures Trim(s) == t
  {
    if t == [] {
      SpacesJoin(before, after);
      TrimStartDrops(before + after, []);
      assert s == before + after + [];
    } else {
      TextLeads(t, after);
      TrimStartDrops(before, t + after);
      TrimEndDrops(t, after);
    }
  }

  /** Trimming removes white space on both sides, whole characters and as many as there are; nothing else does that. */
  lemma TrimExactly(s: seq<byte>, t: seq<byte>)
    ensures t == Trim(s) <==> exists before, after :: Trimmed(s, before, t, after)
  {
    hide Trim, Trimmed;
    if t == Trim(s) {
      var before, after := TrimSplits(s);
    }
    if before, after :| Trimmed(s, before, t, after) {
      TrimDrops(s, before, t, after);
    }
  }

  // ---------- Words ----------

  predicate IsLower(b: byte) {
    97 <= b <= 122
  }

  /** White space cannot run into a word. */
  predicate Closed(word: seq<byte>) {
    word != [] && IsLower(word[0]) && IsLower(word[|word| - 1])
  }

  lemma WordHasNoSpace(name: seq<byte>, word: seq<byte>)
    requires Closed(word) && EqualsIgnoreCase(name, word)
    ensures LeadingSpace(name) == 0 && TrailingSpace(name) == 0
  {
    assert Lower(name[0]) == word[0] && Lower(name[|name| - 1]) == word[|word| - 1];
  }

  lemma WordExactly(value: seq<byte>, word: string)
    requires Closed(Codes(word))
    ensures IsWord(value, word) <==> EqualsIgnoreCase(Trim(value), Codes(word))
  {
    if EqualsIgnoreCase(Trim(value), Codes(word)) {
      var before, after := TrimSplits(value);
      assert value == before + (Trim(value) + after);
    }
    if before, name, after :|
      Spaces(before) && EqualsIgnoreCase(name, Codes(word)) && Spaces(after) && value == before + (name + after)
    {
      WordHasNoSpace(name, Codes(word));
      TrimDrops(value, before, name, after);
    }
  }

  /** A character that is neither white space nor in the word is not in its printed forms. */
  predicate Foreign(c: byte, word: seq<byte>) {
    !NarrowSpace(c) && c < 65 && c !in word
  }

  lemma {:induction false} SpacesHaveOnlySpaces(s: seq<byte>, c: byte)
    requires Spaces(s) && !NarrowSpace(c) && c < 0x80
    ensures c !in s
    decreases |s|
  {
    if s != [] {
      var n := LeadingSpace(s);
      SpacesHaveOnlySpaces(s[n..], c);
      assert forall i :: 0 <= i < |s| ==> s[i] == if i < n then s[..n][i] else s[n..][i - n];
    }
  }

  lemma WordHasNo(value: seq<byte>, word: string, c: byte)
    requires IsWord(value, word) && Foreign(c, Codes(word))
    ensures c !in value
  {
    var before, name, after :|
      Spaces(before) && EqualsIgnoreCase(name, Codes(word)) && Spaces(after) && value == before + (name + after);
    SpacesHaveOnlySpaces(before, c);
    SpacesHaveOnlySpaces(after, c);
    forall i | 0 <= i < |name| ensures name[i] != c {
      assert Lower(name[i]) == Lower(Codes(word)[i]);
    }
  }

  /** The deciding function accepts exactly the HTML media types, with or without parameters. */
  lemma HtmlExactly(types: seq<seq<byte>>)
    ensures HtmlType(types) <==> |types| == 1 && IsMediaType(types[0], "text/html")
  {
    hide IsWord, Trim, EqualsIgnoreCase;
    Words();
    if |types| == 1 {
      var value := types[0];
      var n := IndexOf(value, SEMICOLON);
      WordExactly(value[..n], "text/html");
      if IsWord(value[..n], "text/html") {
        assert n == |value| ==> value[..n] == value;
        assert n < |value| ==> value == value[..n] + [Code(';')] + value[n + 1..];
      }
      if IsMediaType(value, "text/html") {
        MediaTypeIsCut(value);
      }
    }
  }

  lemma MediaTypeIsCut(value: seq<byte>)
    requires IsMediaType(value, "text/html")
    ensures IsWord(value[..IndexOf(value, SEMICOLON)], "text/html")
  {
    hide IsWord;
    Words();
    if IsWord(value, "text/html") {
      WordHasNo(value, "text/html", SEMICOLON);
      IndexOfIs(value, SEMICOLON, |value|);
      assert value[..|value|] == value;
    } else {
      var name, parameters :| IsWord(name, "text/html") && value == name + [Code(';')] + parameters;
      WordHasNo(name, "text/html", SEMICOLON);
      IndexOfIs(value, SEMICOLON, |name|);
      assert value[..|name|] == name;
    }
  }

  /** The framing rules, field by field. */
  lemma FramingExactly(lengths: seq<seq<byte>>, encodings: seq<seq<byte>>, framing: Framing)
    ensures FramingOf(lengths, encodings) == Some(framing) <==> Frames(lengths, encodings, framing)
  {
    hide IsWord, Trim, EqualsIgnoreCase, Decimal, DecimalDenotes;
    Words();
    if |encodings| == 1 {
      WordExactly(encodings[0], "chunked");
      if IsWord(encodings[0], "chunked") {
        WordHasNo(encodings[0], "chunked", COMMA);
      }
    }
    if |lengths| == 1 && framing.Length? {
      DecimalExactly(lengths[0], framing.length);
      NothingIsZero();
    }
  }

  lemma NothingIsZero()
    ensures Decimal([]) == 0
  {
  }

  // ---------- The fields ----------

  lemma FieldReads(f: Field, name: seq<byte>)
    requires WellFormed(f)
    ensures ValidField(PrintField(f)) && OneLine(PrintField(f))
    ensures FieldValue(PrintField(f)) == Trim(f.value)
    ensures Named(PrintField(f), name) == EqualsIgnoreCase(f.name, name)
  {
    var line, n := PrintField(f), |f.name|;
    forall i | 0 <= i < n ensures line[i] != COLON {
      assert IsTokenByte(f.name[i]);
    }
    IndexOfIs(line, COLON, n);
    assert line[..n] == f.name && line[n + 1..] == f.value;
    forall i | 0 <= i < |line| ensures line[i] != CR {
      if i < n {
        assert IsTokenByte(f.name[i]);
      } else if i > n {
        assert line[i] == f.value[i - n - 1];
      }
    }
  }

  lemma FieldParses(line: seq<byte>) returns (f: Field)
    requires ValidField(line)
    ensures WellFormed(f) && PrintField(f) == line
  {
    var n := IndexOf(line, COLON);
    f := Field(line[..n], line[n + 1..]);
    assert line == line[..n] + [line[n]] + line[n + 1..];
  }

  lemma {:induction false} FieldsRead(fields: seq<Field>, name: seq<byte>)
    requires AllWellFormed(fields)
    ensures ValidFields(FieldLines(fields)) && Values(FieldLines(fields), name) == ValuesOf(fields, name)
  {
    var n, lines := |fields|, FieldLines(fields);
    forall i | 0 <= i < n ensures ValidField(lines[i]) {
      FieldReads(fields[i], name);
    }
    if fields != [] {
      FieldsRead(fields[..n - 1], name);
      FieldReads(fields[n - 1], name);
      assert lines[..n - 1] == FieldLines(fields[..n - 1]);
    }
  }

  lemma {:induction false} FieldsParse(lines: seq<seq<byte>>) returns (fields: seq<Field>)
    requires ValidFields(lines)
    ensures AllWellFormed(fields) && FieldLines(fields) == lines
  {
    fields := [];
    if lines != [] {
      var f := FieldParses(lines[0]);
      fields := FieldsParse(lines[1..]);
      fields := [f] + fields;
    }
  }

  // ---------- The head ----------

  lemma Announced(fields: seq<Field>, framing: Framing)
    ensures Announces(fields, framing) <==>
            && HtmlType(ValuesOf(fields, CONTENT_TYPE))
            && FramingOf(ValuesOf(fields, CONTENT_LENGTH), ValuesOf(fields, TRANSFER_ENCODING)) == Some(framing)
  {
    hide HtmlType, IsMediaType, FramingOf, Frames, ValuesOf;
    Words();
    HtmlExactly(ValuesOf(fields, CONTENT_TYPE));
    FramingExactly(ValuesOf(fields, CONTENT_LENGTH), ValuesOf(fields, TRANSFER_ENCODING), framing);
  }

  lemma HeadRoundTrip(h: ResponseHead, framing: Framing)
    requires ValidHead(h, framing)
    ensures Head(PrintHead(h)) == Some(framing)
  {
    hide SuccessfulStatus, ValidField, FramingOf, HtmlType, Values, ValuesOf, WellFormed, ValidUtf8, OneLine, Announces;
    var lines := [PrintStatus(h.status)] + FieldLines(h.fields);
    Announced(h.fields, framing);
    forall i | 0 <= i < |lines| ensures OneLine(lines[i]) {
      if i > 0 {
        FieldReads(h.fields[i - 1], CONTENT_TYPE);
      }
    }
    JoinedSplits(lines);
    StatusReads(h.status);
    FieldsRead(h.fields, CONTENT_TYPE);
    FieldsRead(h.fields, CONTENT_LENGTH);
    FieldsRead(h.fields, TRANSFER_ENCODING);
    assert lines[1..] == FieldLines(h.fields);
  }

  lemma HeadParses(head: seq<byte>, framing: Framing) returns (h: ResponseHead)
    requires Head(head) == Some(framing)
    ensures ValidHead(h, framing) && PrintHead(h) == head
  {
    hide SuccessfulStatus, ValidField, FramingOf, HtmlType, Values, ValuesOf, ValidStatus, WellFormed, ValidUtf8;
    hide OneLine, Announces;
    var lines := SplitLines(head);
    SplitJoins(head);
    var status := StatusParses(lines[0]);
    var fields := FieldsParse(lines[1..]);
    FieldsRead(fields, CONTENT_TYPE);
    FieldsRead(fields, CONTENT_LENGTH);
    FieldsRead(fields, TRANSFER_ENCODING);
    Announced(fields, framing);
    h := ResponseHead(status, fields);
    assert [lines[0]] + lines[1..] == lines;
  }

  /** A head is accepted with a framing exactly when it is the printed form of a valid head that announces it. */
  lemma HeadExactly(head: seq<byte>, framing: Framing)
    ensures Head(head) == Some(framing) <==> exists h :: ValidHead(h, framing) && PrintHead(h) == head
  {
    if Head(head) == Some(framing) {
      var h := HeadParses(head, framing);
    }
    if h :| ValidHead(h, framing) && PrintHead(h) == head {
      HeadRoundTrip(h, framing);
    }
  }
}
