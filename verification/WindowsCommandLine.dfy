/** Quoting of Windows command lines (src-tauri/src/cli_supervisor.rs:111-138, 842-861). */
module WindowsCommandLine {
  import opened Bytes
  import opened Utf16

  const TAB: u16 := 9
  const SPACE: u16 := 32
  const QUOTE: u16 := 34
  const BACKSLASH: u16 := 92

  predicate IsBlank(c: u16) {
    c == SPACE || c == TAB
  }

  /** Arguments are separated by spaces and tabs. */
  lemma BlanksExactly(c: u16)
    ensures IsBlank(c) <==> c == ' ' as int || c == '\t' as int
    ensures SPACE == ' ' as int && TAB == '\t' as int && QUOTE == '"' as int && BACKSLASH == '\\' as int
  {
  }

  function Backslashes(n: nat): (s: Text)
    ensures |s| == n && forall i :: 0 <= i < n ==> s[i] == BACKSLASH
  {
    seq(n, _ => BACKSLASH)
  }

  // ---------- The printer ----------

  predicate NeedsQuotes(a: Text) {
    a == [] || SPACE in a || TAB in a || QUOTE in a
  }

  /** What stands between the quotes for argument `a`, when `n` backslashes before it are still to be written. */
  function Escaped(a: Text, n: nat): Text {
    if a == [] then Backslashes(2 * n)
    else if a[0] == BACKSLASH then Escaped(a[1..], n + 1)
    else if a[0] == QUOTE then Backslashes(2 * n + 1) + [QUOTE] + Escaped(a[1..], 0)
    else Backslashes(n) + [a[0]] + Escaped(a[1..], 0)
  }

  function Quoted(a: Text): Text {
    if NeedsQuotes(a) then [QUOTE] + Escaped(a, 0) + [QUOTE] else a
  }

  function Joined(arguments: seq<Text>): Text {
    if arguments == [] then [] else [SPACE] + Quoted(arguments[0]) + Joined(arguments[1..])
  }

  function CommandLine(program: Text, arguments: seq<Text>): Text {
    Quoted(program) + Joined(arguments)
  }

  // ---------- The documented parser ----------

  function SkipBlanks(s: Text): (r: Text)
    ensures |r| <= |s| && (r == [] || !IsBlank(r[0]))
  {
    if s != [] && IsBlank(s[0]) then SkipBlanks(s[1..]) else s
  }

  /**
   One argument of CommandLineToArgvW and the text after it. `n` counts the backslashes just read: 2n of them before a
   quote stand for n and the quote toggles the "in quotes" mode, 2n + 1 stand for n and a literal quote, and before
   anything else backslashes stand for themselves.
   */
  function ParseArgument(s: Text, inQuotes: bool, n: nat): (r: (Text, Text))
    ensures |r.1| <= |s|
  {
    if s == [] then (Backslashes(n), [])
    else if s[0] == BACKSLASH then ParseArgument(s[1..], inQuotes, n + 1)
    else if s[0] == QUOTE then
      var (a, rest) := ParseArgument(s[1..], if n % 2 == 0 then !inQuotes else inQuotes, 0);
      (Backslashes(n / 2) + (if n % 2 == 0 then a else [QUOTE] + a), rest)
    else if !inQuotes && IsBlank(s[0]) then (Backslashes(n), s)
    else
      var (a, rest) := ParseArgument(s[1..], inQuotes, 0);
      (Backslashes(n) + [s[0]] + a, rest)
  }

  function ParseArguments(s: Text): seq<Text>
    decreases |s|
  {
    var t := SkipBlanks(s);
    if t == [] then [] else
    var (a, rest) := ParseArgument(t, false, 0);
    ArgumentConsumes(t);
    [a] + ParseArguments(rest)
  }

  lemma ArgumentConsumes(t: Text)
    requires t != [] && !IsBlank(t[0])
    ensures |ParseArgument(t, false, 0).1| < |t|
  {
  }

  function UpTo(s: Text, stop: u16 -> bool): (n: nat)
    ensures n <= |s| && (n == |s| || stop(s[n])) && forall i :: 0 <= i < n ==> !stop(s[i])
  {
    if s == [] || stop(s[0]) then 0 else 1 + UpTo(s[1..], stop)
  }

  /** The program name: up to the next quote if it starts with one, otherwise up to a blank; nothing is an escape. */
  function ParseProgram(s: Text): (Text, Text) {
    if s != [] && s[0] == QUOTE then
      var n := UpTo(s[1..], c => c == QUOTE);
      (s[1..1 + n], if 1 + n < |s| then s[2 + n..] else [])
    else
      var n := UpTo(s, IsBlank);
      (s[..n], s[n..])
  }

  function Parse(line: Text): seq<Text> {
    var (program, rest) := ParseProgram(line);
    [program] + ParseArguments(rest)
  }

  // ---------- Round trip ----------

  predicate AtEnd(rest: Text) {
    rest == [] || IsBlank(rest[0])
  }

  lemma {:induction false} ReadBackslashes(k: nat, s: Text, inQuotes: bool, n: nat)
    ensures ParseArgument(Backslashes(k) + s, inQuotes, n) == ParseArgument(s, inQuotes, n + k)
  {
    if k == 0 {
      assert Backslashes(0) + s == s;
    } else {
      assert (Backslashes(k) + s)[1..] == Backslashes(k - 1) + s;
      ReadBackslashes(k - 1, s, inQuotes, n + 1);
    }
  }

  lemma ReadClosingQuote(n: nat, rest: Text)
    requires AtEnd(rest)
    ensures ParseArgument(Backslashes(2 * n) + [QUOTE] + rest, true, 0) == (Backslashes(n), rest)
  {
    var tail := [QUOTE] + rest;
    ReadBackslashes(2 * n, tail, true, 0);
    assert Backslashes(2 * n) + [QUOTE] + rest == Backslashes(2 * n) + tail;
    assert tail[1..] == rest && tail[0] == QUOTE;
    assert ParseArgument(rest, false, 0) == ([], rest);
    assert Backslashes(n) + [] == Backslashes(n);
  }

  lemma ReadInnerQuote(n: nat, tail: Text)
    ensures var (a, rest) := ParseArgument(tail, true, 0);
            ParseArgument(Backslashes(2 * n + 1) + [QUOTE] + tail, true, 0) == (Backslashes(n) + [QUOTE] + a, rest)
  {
    var text := [QUOTE] + tail;
    var (a, rest) := ParseArgument(tail, true, 0);
    assert ParseArgument(text, true, 2 * n + 1) == (Backslashes(n) + ([QUOTE] + a), rest) by {
      assert text[1..] == tail && text[0] == QUOTE;
    }
    hide ParseArgument;
    ReadBackslashes(2 * n + 1, text, true, 0);
    assert Backslashes(2 * n + 1) + [QUOTE] + tail == Backslashes(2 * n + 1) + text;
    assert Backslashes(n) + ([QUOTE] + a) == Backslashes(n) + [QUOTE] + a;
  }

  lemma ReadInnerCharacter(n: nat, c: u16, tail: Text)
    requires c != QUOTE && c != BACKSLASH
    ensures var (a, rest) := ParseArgument(tail, true, 0);
            ParseArgument(Backslashes(n) + [c] + tail, true, 0) == (Backslashes(n) + [c] + a, rest)
  {
    var text := [c] + tail;
    var (a, rest) := ParseArgument(tail, true, 0);
    assert ParseArgument(text, true, n) == (Backslashes(n) + [c] + a, rest) by {
      assert text[1..] == tail && text[0] == c;
    }
    hide ParseArgument;
    ReadBackslashes(n, text, true, 0);
    assert Backslashes(n) + [c] + tail == Backslashes(n) + text;
  }

  lemma EscapedStep(a: Text, n: nat, end: Text)
    requires a != [] && a[0] != BACKSLASH
    ensures Escaped(a, n) + end
         == Backslashes(if a[0] == QUOTE then 2 * n + 1 else n) + [a[0]] + (Escaped(a[1..], 0) + end)
  {
  }

  lemma OneMore(a: Text, n: nat)
    requires a != []
    ensures Backslashes(n) + [a[0]] + a[1..] == Backslashes(n) + a
    ensures a[0] == BACKSLASH ==> Backslashes(n + 1) + a[1..] == Backslashes(n) + a
  {
  }

  lemma {:induction false} ReadEscaped(a: Text, n: nat, rest: Text)
    requires AtEnd(rest)
    ensures ParseArgument(Escaped(a, n) + ([QUOTE] + rest), true, 0) == (Backslashes(n) + a, rest)
  {
    hide ParseArgument;
    var end := [QUOTE] + rest;
    if a == [] {
      ReadClosingQuote(n, rest);
      assert Backslashes(2 * n) + [QUOTE] + rest == Backslashes(2 * n) + end;
      assert Backslashes(n) + a == Backslashes(n);
    } else if a[0] == BACKSLASH {
      ReadEscaped(a[1..], n + 1, rest);
      OneMore(a, n);
    } else {
      ReadEscaped(a[1..], 0, rest);
      assert Backslashes(0) + a[1..] == a[1..];
      OneMore(a, n);
      EscapedStep(a, n, end);
      hide Escaped;
      if a[0] == QUOTE {
        ReadInnerQuote(n, Escaped(a[1..], 0) + end);
      } else {
        ReadInnerCharacter(n, a[0], Escaped(a[1..], 0) + end);
      }
    }
  }

  lemma {:induction false} ReadPlain(a: Text, n: nat, rest: Text)
    requires AtEnd(rest) && SPACE !in a && TAB !in a && QUOTE !in a
    ensures ParseArgument(a + rest, false, n) == (Backslashes(n) + a, rest)
  {
    if a == [] {
      assert a + rest == rest && Backslashes(n) + a == Backslashes(n);
    } else {
      assert (a + rest)[1..] == a[1..] + rest;
      if a[0] == BACKSLASH {
        ReadPlain(a[1..], n + 1, rest);
        assert Backslashes(n + 1) + a[1..] == Backslashes(n) + a;
      } else {
        ReadPlain(a[1..], 0, rest);
        assert Backslashes(n) + [a[0]] + (Backslashes(0) + a[1..]) == Backslashes(n) + a;
      }
    }
  }

  /** A quoted argument reads back as itself, and the reader stops behind it. */
  lemma ReadQuoted(a: Text, rest: Text)
    requires AtEnd(rest)
    ensures ParseArgument(Quoted(a) + rest, false, 0) == (a, rest)
  {
    assert Backslashes(0) + a == a;
    if NeedsQuotes(a) {
      var tail := Escaped(a, 0) + ([QUOTE] + rest);
      assert Quoted(a) + rest == [QUOTE] + tail;
      assert ([QUOTE] + tail)[1..] == tail;
      ReadEscaped(a, 0, rest);
    } else {
      ReadPlain(a, 0, rest);
    }
  }

  lemma JoinedStarts(arguments: seq<Text>)
    ensures AtEnd(Joined(arguments))
  {
  }

  lemma QuotedStarts(a: Text)
    ensures Quoted(a) != [] && !IsBlank(Quoted(a)[0])
  {
  }

  lemma SkipOne(c: u16, s: Text)
    requires IsBlank(c) && s != [] && !IsBlank(s[0])
    ensures SkipBlanks([c] + s) == s
  {
    assert ([c] + s)[1..] == s;
  }

  lemma {:induction false} ReadJoined(arguments: seq<Text>)
    ensures ParseArguments(Joined(arguments)) == arguments
  {
    hide ParseArgument, Quoted, SkipBlanks;
    if arguments == [] {
      assert SkipBlanks([]) == [];
    } else {
      var a, rest := arguments[0], Joined(arguments[1..]);
      QuotedStarts(a);
      JoinedStarts(arguments[1..]);
      assert Joined(arguments) == [SPACE] + (Quoted(a) + rest);
      SkipOne(SPACE, Quoted(a) + rest);
      ReadQuoted(a, rest);
      ReadJoined(arguments[1..]);
      assert [a] + arguments[1..] == arguments;
    }
  }

  /**
   The program names that survive: no quote inside, and no backslash at the end of a name that needs quoting. Both are
   excluded from Windows file names of programs.
   */
  predicate SafeProgram(program: Text) {
    QUOTE !in program && (NeedsQuotes(program) && program != [] ==> program[|program| - 1] != BACKSLASH)
  }

  function TrailingBackslashes(a: Text, n: nat): nat {
    if a == [] then n else TrailingBackslashes(a[1..], if a[0] == BACKSLASH then n + 1 else 0)
  }

  /** Without quotes inside, only the backslashes at the end are doubled. */
  lemma {:induction false} EscapedWithoutQuotes(a: Text, n: nat)
    requires QUOTE !in a
    ensures Escaped(a, n) == Backslashes(n) + a + Backslashes(TrailingBackslashes(a, n))
  {
    if a == [] {
      assert Backslashes(n) + a + Backslashes(n) == Backslashes(2 * n);
    } else if a[0] == BACKSLASH {
      EscapedWithoutQuotes(a[1..], n + 1);
      assert Backslashes(n + 1) + a[1..] == Backslashes(n) + a;
    } else {
      EscapedWithoutQuotes(a[1..], 0);
      var t := Backslashes(TrailingBackslashes(a, n));
      assert Backslashes(n) + [a[0]] + (Backslashes(0) + a[1..] + t) == Backslashes(n) + a + t;
    }
  }

  lemma {:induction false} TrailingExactly(a: Text, n: nat)
    ensures TrailingBackslashes(a, n) == 0 <==> (if a == [] then n == 0 else a[|a| - 1] != BACKSLASH)
  {
    if a != [] {
      TrailingExactly(a[1..], if a[0] == BACKSLASH then n + 1 else 0);
    }
  }

  lemma UpToIs(s: Text, stop: u16 -> bool, n: nat)
    requires n <= |s| && (n == |s| || stop(s[n])) && forall i :: 0 <= i < n ==> !stop(s[i])
    ensures UpTo(s, stop) == n
  {
  }

  lemma ReadToQuote(name: Text, rest: Text)
    requires QUOTE !in name
    ensures ParseProgram([QUOTE] + name + [QUOTE] + rest) == (name, rest)
  {
    hide UpTo;
    var line := [QUOTE] + name + [QUOTE] + rest;
    var inner := name + [QUOTE] + rest;
    assert line[1..] == inner;
    forall i | 0 <= i < |name|
      ensures inner[i] != QUOTE
    {
      assert inner[i] == name[i] && name[i] in name;
    }
    UpToIs(inner, c => c == QUOTE, |name|);
    assert line[1..1 + |name|] == name && line[2 + |name|..] == rest;
  }

  lemma ReadQuotedProgram(program: Text, rest: Text)
    requires NeedsQuotes(program) && QUOTE !in program
    ensures ParseProgram(Quoted(program) + rest)
         == (program + Backslashes(TrailingBackslashes(program, 0)), rest)
  {
    hide ParseProgram, NeedsQuotes, TrailingBackslashes, Escaped;
    var name := program + Backslashes(TrailingBackslashes(program, 0));
    EscapedWithoutQuotes(program, 0);
    assert Backslashes(0) + program == program;
    ReadToQuote(name, rest);
  }

  lemma ReadPlainProgram(program: Text, rest: Text)
    requires !NeedsQuotes(program) && AtEnd(rest)
    ensures ParseProgram(Quoted(program) + rest) == (program, rest)
  {
    var line := program + rest;
    forall i | 0 <= i < |program|
      ensures !IsBlank(line[i]) && line[i] != QUOTE
    {
      assert line[i] == program[i] && program[i] in program;
    }
    UpToIs(line, IsBlank, |program|);
    assert line[..|program|] == program && line[|program|..] == rest;
  }

  lemma ProgramHasNoQuote(line: Text)
    requires line != [] && line[0] == QUOTE
    ensures QUOTE !in ParseProgram(line).0
  {
    var n := UpTo(line[1..], c => c == QUOTE);
    assert ParseProgram(line).0 == line[1..][..n];
  }

  /** The program name reads back as itself exactly when it is safe; the arguments then follow it. */
  lemma ReadProgram(program: Text, rest: Text)
    requires AtEnd(rest)
    ensures ParseProgram(Quoted(program) + rest).0 == program <==> SafeProgram(program)
    ensures SafeProgram(program) ==> ParseProgram(Quoted(program) + rest) == (program, rest)
  {
    hide ParseProgram, Escaped;
    if !NeedsQuotes(program) {
      ReadPlainProgram(program, rest);
    } else if QUOTE in program {
      ProgramHasNoQuote(Quoted(program) + rest);
    } else {
      ReadQuotedProgram(program, rest);
      TrailingExactly(program, 0);
      var t := Backslashes(TrailingBackslashes(program, 0));
      assert |program + t| == |program| + |t|;
      assert |t| == 0 ==> program + t == program;
    }
  }

  /** Parsing the printed command line gives back every argument list, exactly for the safe program names. */
  lemma CommandLineRoundTrip(program: Text, arguments: seq<Text>)
    ensures Parse(CommandLine(program, arguments)) == [program] + arguments <==> SafeProgram(program)
  {
    hide ParseProgram, ParseArguments, Quoted, Joined, SafeProgram;
    JoinedStarts(arguments);
    ReadProgram(program, Joined(arguments));
    ReadJoined(arguments);
    var parsed := Parse(CommandLine(program, arguments));
    assert parsed[0] == ParseProgram(CommandLine(program, arguments)).0;
    assert ([program] + arguments)[0] == program;
  }

  // ---------- Embedded NUL ----------

  lemma {:induction false} EscapedNul(a: Text, n: nat)
    ensures NUL in Escaped(a, n) <==> NUL in a
  {
    if a != [] {
      assert a == [a[0]] + a[1..];
      EscapedNul(a[1..], if a[0] == BACKSLASH then n + 1 else 0);
    }
  }

  lemma QuotedNul(a: Text)
    ensures NUL in Quoted(a) <==> NUL in a
  {
    EscapedNul(a, 0);
  }

  ghost predicate SomeNul(arguments: seq<Text>) {
    exists i :: 0 <= i < |arguments| && NUL in arguments[i]
  }

  lemma {:induction false} JoinedNul(arguments: seq<Text>)
    ensures NUL in Joined(arguments) <==> SomeNul(arguments)
  {
    if arguments != [] {
      QuotedNul(arguments[0]);
      JoinedNul(arguments[1..]);
      if SomeNul(arguments) {
        var i :| 0 <= i < |arguments| && NUL in arguments[i];
        assert i > 0 ==> NUL in arguments[1..][i - 1];
      }
    }
  }

  // ---------- The loops ----------

  method QuoteWindowsArgument(argument: Text) returns (quoted: Text)
    ensures quoted == Quoted(argument)
  {
    if !NeedsQuotes(argument) {
      return argument;
    }
    quoted := [QUOTE];
    var backslashes := 0;
    for i := 0 to |argument|
      invariant quoted + Escaped(argument[i..], backslashes) == [QUOTE] + Escaped(argument, 0)
    {
      var c := argument[i];
      assert argument[i..][1..] == argument[i + 1..];
      if c == BACKSLASH {
        backslashes := backslashes + 1;
        continue;
      }
      if c == QUOTE {
        quoted := quoted + Backslashes(backslashes * 2 + 1) + [c];
      } else {
        quoted := quoted + Backslashes(backslashes) + [c];
      }
      backslashes := 0;
    }
    quoted := quoted + Backslashes(backslashes * 2);
    quoted := quoted + [QUOTE];
  }

  lemma {:induction false} JoinedSnoc(arguments: seq<Text>, last: Text)
    ensures Joined(arguments + [last]) == Joined(arguments) + [SPACE] + Quoted(last)
  {
    if arguments == [] {
      assert arguments + [last] == [last];
      assert Joined([last]) == [SPACE] + Quoted(last) + Joined([]);
    } else {
      assert (arguments + [last])[1..] == arguments[1..] + [last];
      JoinedSnoc(arguments[1..], last);
    }
  }

  /** None stands for the error of an embedded NUL. */
  method BuildCommandLine(program: Text, arguments: seq<Text>) returns (line: Option<Text>)
    ensures line.None? <==> NUL in program || SomeNul(arguments)
    ensures line.Some? ==> line.value == CommandLine(program, arguments) + [NUL] && NUL !in CommandLine(program, arguments)
  {
    var text := QuoteWindowsArgument(program);
    for i := 0 to |arguments|
      invariant text == Quoted(program) + Joined(arguments[..i])
    {
      var quoted := QuoteWindowsArgument(arguments[i]);
      text := text + [SPACE];
      text := text + quoted;
      JoinedSnoc(arguments[..i], arguments[i]);
      assert arguments[..i + 1] == arguments[..i] + [arguments[i]];
    }
    assert arguments[..|arguments|] == arguments;
    QuotedNul(program);
    JoinedNul(arguments);
    if NUL in text {
      return None;
    }
    return Some(text + [NUL]);
  }
}
