/**
 The command line of examples/tui_perf_conpty.rs, and the reader its receiver applies: the rules
 in the Remarks of Microsoft's documentation of CommandLineToArgvW.
 */
module WindowsQuote {
  import opened Text

  predicate Blank(c: char) {
    c == ' ' || c == '\t'
  }

  /** Without blanks and quotation marks. */
  predicate Unbroken(s: string) {
    forall i :: 0 <= i < |s| ==> !Blank(s[i]) && s[i] != '"'
  }

  /** Can stand unquoted. */
  predicate Plain(argument: string) {
    argument != "" && Unbroken(argument)
  }

  // ---------------------------------------------------------------- writer

  /** The inside of the quotes, after a run of `slashes` backslashes. */
  function Escaped(s: string, slashes: nat): string {
    if s == "" then Repeat('\\', 2 * slashes)
    else if s[0] == '\\' then Escaped(s[1..], slashes + 1)
    else if s[0] == '"' then Repeat('\\', 2 * slashes + 1) + ['"'] + Escaped(s[1..], 0)
    else Repeat('\\', slashes) + [s[0]] + Escaped(s[1..], 0)
  }

  function Quoted(argument: string): string {
    if Plain(argument) then argument else ['"'] + Escaped(argument, 0) + ['"']
  }

  lemma {:induction false} EscapedIsLonger(s: string, slashes: nat)
    ensures |Escaped(s, slashes)| >= |s| + slashes
  {
    if s == "" {
    } else if s[0] == '\\' {
      EscapedIsLonger(s[1..], slashes + 1);
    } else {
      EscapedIsLonger(s[1..], 0);
    }
  }

  /** Exactly the arguments that are not empty and have no blank and no mark are written as they are. */
  lemma QuotedOnlyIfNeeded(argument: string)
    ensures Quoted(argument) == argument <==> argument != "" && ' ' !in argument && '\t' !in argument && '"' !in argument
  {
    EscapedIsLonger(argument, 0);
    assert Unbroken(argument) <==> ' ' !in argument && '\t' !in argument && '"' !in argument;
  }

  method QuoteWindowsArgument(argument: string) returns (quoted: string)
    ensures quoted == Quoted(argument)
  {
    if argument != "" && !exists k :: 0 <= k < |argument| && (Blank(argument[k]) || argument[k] == '"') {
      return argument;
    }
    assert !Plain(argument);
    quoted := ['"'];
    var slashes: nat := 0;
    var i := 0;
    while i < |argument|
      invariant 0 <= i <= |argument|
      invariant quoted + Escaped(argument[i..], slashes) == ['"'] + Escaped(argument, 0)
    {
      var rest := argument[i..];
      assert rest[1..] == argument[i + 1..];
      i := i + 1;
      if rest[0] == '\\' {
        slashes := slashes + 1;
        continue;
      }
      if rest[0] == '"' {
        quoted := quoted + Repeat('\\', slashes * 2 + 1) + ['"'];
      } else {
        quoted := quoted + Repeat('\\', slashes) + [rest[0]];
      }
      slashes := 0;
    }
    quoted := quoted + Repeat('\\', slashes * 2) + ['"'];
  }

  function Join(arguments: seq<string>): string {
    if arguments == [] then ""
    else if |arguments| == 1 then Quoted(arguments[0])
    else Quoted(arguments[0]) + [' '] + Join(arguments[1..])
  }

  // ---------------------------------------------------------------- reader

  datatype Read = Read(argument: string, rest: string)

  function Before(prefix: string, read: Read): Read {
    read.(argument := prefix + read.argument)
  }

  /**
   One argument from `s`, after a run of `slashes` backslashes: before a quotation mark half of
   them stand, and an odd one makes the mark literal; before anything else all of them stand.
   */
  function ReadArgument(s: string, quotes: bool, slashes: nat): (read: Read)
    ensures |read.rest| <= |s|
  {
    if s == "" then Read(Repeat('\\', slashes), s)
    else if s[0] == '\\' then ReadArgument(s[1..], quotes, slashes + 1)
    else if s[0] == '"' then
      if slashes % 2 == 0 then Before(Repeat('\\', slashes / 2), ReadArgument(s[1..], !quotes, 0))
      else Before(Repeat('\\', slashes / 2) + ['"'], ReadArgument(s[1..], quotes, 0))
    else if Blank(s[0]) && !quotes then Read(Repeat('\\', slashes), s)
    else Before(Repeat('\\', slashes) + [s[0]], ReadArgument(s[1..], quotes, 0))
  }

  /** The program name: quotation marks toggle, backslashes are ordinary. */
  function ReadProgram(s: string, quotes: bool): (read: Read)
    ensures |read.rest| <= |s|
  {
    if s == "" || (Blank(s[0]) && !quotes) then Read("", s)
    else if s[0] == '"' then ReadProgram(s[1..], !quotes)
    else Before([s[0]], ReadProgram(s[1..], quotes))
  }

  function ReadArguments(s: string): seq<string>
    decreases |s|
  {
    if s == "" then []
    else if Blank(s[0]) then ReadArguments(s[1..])
    else
      var read := ReadArgument(s, false, 0);
      [read.argument] + if |read.rest| < |s| then ReadArguments(read.rest) else []
  }

  function UntilNul(line: string): string {
    if line == "" || line[0] == '\0' then "" else [line[0]] + UntilNul(line[1..])
  }

  /** The argument vector; an empty line stands for the running executable `self`. */
  function ReadLine(line: string, self: string): seq<string> {
    var s := UntilNul(line);
    if s == "" then [self]
    else
      var program := ReadProgram(s, false);
      [program.argument] + ReadArguments(program.rest)
  }

  // ---------------------------------------------------------------- one argument

  /** Where an argument may end. */
  predicate AtEnd(s: string) {
    s == "" || Blank(s[0])
  }

  lemma RepeatPlus(n: nat, m: nat)
    ensures Repeat('\\', n) + Repeat('\\', m) == Repeat('\\', n + m)
  {
  }

  lemma {:induction false} SlashesRead(n: nat, s: string, quotes: bool, slashes: nat)
    ensures ReadArgument(Repeat('\\', n) + s, quotes, slashes) == ReadArgument(s, quotes, slashes + n)
    decreases n
  {
    if n == 0 {
      assert Repeat('\\', 0) + s == s;
    } else {
      var t := Repeat('\\', n) + s;
      assert t[0] == '\\' && t[1..] == Repeat('\\', n - 1) + s;
      SlashesRead(n - 1, s, quotes, slashes + 1);
    }
  }

  /** A run of backslashes that ends in an ordinary character stands as it is. */
  lemma OrdinaryReads(c: char, s: string, quotes: bool, slashes: nat, read: Read)
    requires c != '\\' && c != '"' && (quotes || !Blank(c))
    requires ReadArgument(s, quotes, 0) == read
    ensures ReadArgument(Repeat('\\', slashes) + ([c] + s), quotes, 0) == Read(Repeat('\\', slashes) + ([c] + read.argument), read.rest)
  {
    SlashesRead(slashes, [c] + s, quotes, 0);
    assert ([c] + s)[1..] == s;
    assert Repeat('\\', slashes) + [c] + read.argument == Repeat('\\', slashes) + ([c] + read.argument);
  }

  /** Twice as many and one more before a mark make it literal. */
  lemma LiteralMarkReads(s: string, slashes: nat, read: Read)
    requires ReadArgument(s, true, 0) == read
    ensures ReadArgument(Repeat('\\', 2 * slashes + 1) + (['"'] + s), true, 0) == Read(Repeat('\\', slashes) + (['"'] + read.argument), read.rest)
  {
    SlashesRead(2 * slashes + 1, ['"'] + s, true, 0);
    assert (['"'] + s)[1..] == s;
    assert Repeat('\\', slashes) + ['"'] + read.argument == Repeat('\\', slashes) + (['"'] + read.argument);
  }

  /** Twice as many before the closing mark are halved. */
  lemma ClosingMarkReads(slashes: nat, rest: string)
    requires AtEnd(rest)
    ensures ReadArgument(Repeat('\\', 2 * slashes) + (['"'] + rest), true, 0) == Read(Repeat('\\', slashes), rest)
  {
    SlashesRead(2 * slashes, ['"'] + rest, true, 0);
    assert (['"'] + rest)[1..] == rest;
    assert ReadArgument(rest, false, 0) == Read("", rest);
    assert Repeat('\\', slashes) + "" == Repeat('\\', slashes);
  }

  lemma MoreSlashes(slashes: nat, s: string)
    requires s != "" && s[0] == '\\'
    ensures Repeat('\\', slashes + 1) + s[1..] == Repeat('\\', slashes) + s
  {
  }

  lemma NoSlashes(s: string)
    ensures Repeat('\\', 0) + s == s
  {
  }

  lemma Regroup(a: string, b: string, c: string, d: string)
    ensures a + b + c + d == a + (b + (c + d))
  {
  }

  lemma Split(s: string, t: string)
    requires s != ""
    ensures [s[0]] + s[1..] == s && [s[0]] + (s[1..] + t) == s + t && (s + t)[1..] == s[1..] + t
  {
  }

  /** Inside quotes, reading undoes escaping, up to the closing mark. */
  lemma {:induction false} EscapedReads(s: string, slashes: nat, rest: string)
    requires AtEnd(rest)
    ensures ReadArgument(Escaped(s, slashes) + (['"'] + rest), true, 0) == Read(Repeat('\\', slashes) + s, rest)
    decreases |s|
  {
    hide ReadArgument, Repeat, AtEnd;
    if s == "" {
      ClosingMarkReads(slashes, rest);
      assert Repeat('\\', slashes) + s == Repeat('\\', slashes);
    } else if s[0] == '\\' {
      EscapedReads(s[1..], slashes + 1, rest);
      MoreSlashes(slashes, s);
    } else {
      EscapedReads(s[1..], 0, rest);
      NoSlashes(s[1..]);
      EscapedStepReads(s, slashes, rest);
    }
  }

  lemma EscapedStepReads(s: string, slashes: nat, rest: string)
    requires s != "" && s[0] != '\\'
    requires ReadArgument(Escaped(s[1..], 0) + (['"'] + rest), true, 0) == Read(s[1..], rest)
    ensures ReadArgument(Escaped(s, slashes) + (['"'] + rest), true, 0) == Read(Repeat('\\', slashes) + s, rest)
  {
    hide ReadArgument, Repeat;
    var inner, tail := Escaped(s[1..], 0), ['"'] + rest;
    Split(s, "");
    if s[0] == '"' {
      LiteralMarkReads(inner + tail, slashes, Read(s[1..], rest));
      Regroup(Repeat('\\', 2 * slashes + 1), ['"'], inner, tail);
    } else {
      OrdinaryReads(s[0], inner + tail, true, slashes, Read(s[1..], rest));
      Regroup(Repeat('\\', slashes), [s[0]], inner, tail);
    }
  }

  lemma {:induction false} PlainReads(s: string, slashes: nat, rest: string)
    requires AtEnd(rest) && Unbroken(s)
    ensures ReadArgument(Repeat('\\', slashes) + (s + rest), false, 0) == Read(Repeat('\\', slashes) + s, rest)
    decreases |s|
  {
    hide ReadArgument, Repeat;
    if s == "" {
      RunReads(slashes, rest);
      assert s + rest == rest && Repeat('\\', slashes) + s == Repeat('\\', slashes);
    } else {
      Split(s, rest);
      assert Unbroken(s[1..]);
      hide Unbroken, AtEnd;
      if s[0] == '\\' {
        PlainReads(s[1..], slashes + 1, rest);
        MoreSlashes(slashes, s + rest);
        MoreSlashes(slashes, s);
      } else {
        PlainReads(s[1..], 0, rest);
        NoSlashes(s[1..] + rest);
        NoSlashes(s[1..]);
        assert s[0] != '"' && !Blank(s[0]) by { FirstUnbroken(s); }
        OrdinaryReads(s[0], s[1..] + rest, false, slashes, Read(s[1..], rest));
      }
    }
  }

  lemma FirstUnbroken(s: string)
    requires s != "" && Unbroken(s)
    ensures s[0] != '"' && !Blank(s[0])
  {
  }

  lemma RunReads(slashes: nat, rest: string)
    requires AtEnd(rest)
    ensures ReadArgument(Repeat('\\', slashes) + rest, false, 0) == Read(Repeat('\\', slashes), rest)
  {
    SlashesRead(slashes, rest, false, 0);
  }

  lemma OpeningMarkReads(s: string)
    ensures ReadArgument(['"'] + s, false, 0) == ReadArgument(s, true, 0)
    ensures ReadProgram(['"'] + s, false) == ReadProgram(s, true)
  {
    assert (['"'] + s)[1..] == s;
    NoSlashes(ReadArgument(s, true, 0).argument);
  }

  /** Reading undoes quoting, whatever the argument. */
  lemma QuotedReads(argument: string, rest: string)
    requires AtEnd(rest)
    ensures ReadArgument(Quoted(argument) + rest, false, 0) == Read(argument, rest)
  {
    hide ReadArgument, Repeat, Escaped;
    NoSlashes(argument);
    if Plain(argument) {
      PlainReads(argument, 0, rest);
      NoSlashes(argument + rest);
    } else {
      var inner := Escaped(argument, 0) + (['"'] + rest);
      Regroup(['"'], Escaped(argument, 0), ['"'], rest);
      OpeningMarkReads(inner);
      EscapedReads(argument, 0, rest);
    }
  }

  // ---------------------------------------------------------------- the whole line

  function Tail(arguments: seq<string>): string {
    if arguments == [] then "" else [' '] + Quoted(arguments[0]) + Tail(arguments[1..])
  }

  lemma {:induction false} JoinIs(arguments: seq<string>)
    requires arguments != []
    ensures Join(arguments) == Quoted(arguments[0]) + Tail(arguments[1..])
    decreases |arguments|
  {
    hide Quoted;
    var rest := arguments[1..];
    if rest == [] {
      assert Tail(rest) == "";
    } else {
      JoinIs(rest);
      assert Tail(rest) == [' '] + Quoted(rest[0]) + Tail(rest[1..]);
      assert Join(arguments) == Quoted(arguments[0]) + [' '] + Join(rest);
    }
  }

  lemma TailAtEnd(arguments: seq<string>)
    ensures AtEnd(Tail(arguments))
  {
  }

  lemma QuotedStarts(argument: string)
    ensures Quoted(argument) != "" && !Blank(Quoted(argument)[0])
  {
  }

  lemma {:induction false} TailReads(arguments: seq<string>)
    ensures ReadArguments(Tail(arguments)) == arguments
    decreases |arguments|
  {
    if arguments == [] {
    } else {
      hide Quoted, ReadArgument;
      var rest := Tail(arguments[1..]);
      var s := Quoted(arguments[0]) + rest;
      assert Tail(arguments) == [' '] + s && Tail(arguments)[1..] == s;
      QuotedStarts(arguments[0]);
      TailAtEnd(arguments[1..]);
      QuotedReads(arguments[0], rest);
      assert ReadArguments(Tail(arguments)) == ReadArguments(s);
      assert s[0] == Quoted(arguments[0])[0];
      TailReads(arguments[1..]);
    }
  }

  // ---------------------------------------------------------------- the program name

  predicate NoMark(s: string) {
    forall i :: 0 <= i < |s| ==> s[i] != '"'
  }

  /** Without marks to escape, only the backslashes at the end are doubled. */
  function Trailing(s: string, slashes: nat): nat {
    if s == "" then slashes else Trailing(s[1..], if s[0] == '\\' then slashes + 1 else 0)
  }

  lemma {:induction false} EscapedWithoutMarks(s: string, slashes: nat)
    requires NoMark(s)
    ensures Escaped(s, slashes) == Repeat('\\', slashes) + s + Repeat('\\', Trailing(s, slashes))
    decreases |s|
  {
    if s == "" {
      RepeatPlus(slashes, slashes);
    } else {
      hide Repeat;
      EscapedWithoutMarks(s[1..], if s[0] == '\\' then slashes + 1 else 0);
      var rest := s[1..] + Repeat('\\', Trailing(s, slashes));
      if s[0] == '\\' {
        assert Repeat('\\', slashes + 1) + rest == Repeat('\\', slashes) + s + Repeat('\\', Trailing(s, slashes));
      } else {
        assert Repeat('\\', 0) + rest == rest;
      }
    }
  }

  lemma {:induction false} TrailingIs(s: string, slashes: nat)
    requires s != ""
    ensures Trailing(s, slashes) > 0 <==> s[|s| - 1] == '\\'
    decreases |s|
  {
    if |s| <= 1 {
    } else {
      TrailingIs(s[1..], if s[0] == '\\' then slashes + 1 else 0);
    }
  }

  lemma {:induction false} ProgramReads(s: string, quotes: bool, rest: string)
    requires NoMark(s) && (quotes || (AtEnd(rest) && Unbroken(s)))
    ensures quotes ==> ReadProgram(s + rest, true) == Before(s, ReadProgram(rest, true))
    ensures !quotes ==> ReadProgram(s + rest, false) == Read(s, rest)
    decreases |s|
  {
    if s == "" {
      assert s + rest == rest;
    } else {
      assert (s + rest)[1..] == s[1..] + rest && [s[0]] + s[1..] == s;
      ProgramReads(s[1..], quotes, rest);
      if quotes {
        var read := ReadProgram(rest, true);
        assert [s[0]] + (s[1..] + read.argument) == s + read.argument;
      }
    }
  }

  /** A program name without marks comes back, with its trailing backslashes doubled if it had to be quoted. */
  lemma QuotedProgramReads(program: string, rest: string)
    requires NoMark(program) && AtEnd(rest)
    ensures ReadProgram(Quoted(program) + rest, false) ==
      Read(if Plain(program) then program else program + Repeat('\\', Trailing(program, 0)), rest)
  {
    hide ReadProgram, Repeat, Escaped, Trailing;
    if Plain(program) {
      ProgramReads(program, false, rest);
    } else {
      EscapedWithoutMarks(program, 0);
      var inner := program + Repeat('\\', Trailing(program, 0));
      NoSlashes(program);
      assert Escaped(program, 0) == inner;
      Regroup(['"'], inner, ['"'], rest);
      OpeningMarkReads(inner + (['"'] + rest));
      ProgramReads(inner, true, ['"'] + rest);
      ClosingProgramMark(rest);
      assert inner + "" == inner;
    }
  }

  lemma ClosingProgramMark(rest: string)
    requires AtEnd(rest)
    ensures ReadProgram(['"'] + rest, true) == Read("", rest)
  {
    assert (['"'] + rest)[1..] == rest;
  }

  /** Marks never survive in a program name. */
  lemma {:induction false} ProgramHasNoMark(s: string, quotes: bool)
    ensures NoMark(ReadProgram(s, quotes).argument)
    decreases |s|
  {
    if s == "" || (!quotes && Blank(s[0])) {
    } else {
      ProgramHasNoMark(s[1..], if s[0] == '"' then !quotes else quotes);
    }
  }

  // ---------------------------------------------------------------- NULs

  predicate NoNul(s: string) {
    forall i :: 0 <= i < |s| ==> s[i] != '\0'
  }

  lemma {:induction false} UntilNulKeeps(line: string)
    ensures NoNul(UntilNul(line)) && (NoNul(line) ==> UntilNul(line) == line)
  {
    if line == "" || line[0] == '\0' {
    } else {
      UntilNulKeeps(line[1..]);
      assert NoNul(line) ==> NoNul(line[1..]);
    }
  }

  lemma {:induction false} EscapedNoNul(s: string, slashes: nat)
    requires NoNul(s)
    ensures NoNul(Escaped(s, slashes))
    decreases |s|
  {
    if s == "" {
    } else {
      EscapedNoNul(s[1..], if s[0] == '\\' then slashes + 1 else 0);
    }
  }

  lemma {:induction false} TailNoNul(arguments: seq<string>)
    requires forall a <- arguments :: NoNul(a)
    ensures NoNul(Tail(arguments))
  {
    if arguments == [] {
    } else {
      EscapedNoNul(arguments[0], 0);
      TailNoNul(arguments[1..]);
    }
  }

  lemma {:induction false} ReadArgumentNoNul(s: string, quotes: bool, slashes: nat)
    requires NoNul(s)
    ensures NoNul(ReadArgument(s, quotes, slashes).argument) && NoNul(ReadArgument(s, quotes, slashes).rest)
    decreases |s|
  {
    if s == "" || (!quotes && Blank(s[0])) {
    } else {
      ReadArgumentNoNul(s[1..], if s[0] == '"' && slashes % 2 == 0 then !quotes else quotes, if s[0] == '\\' then slashes + 1 else 0);
    }
  }

  lemma {:induction false} ReadProgramNoNul(s: string, quotes: bool)
    requires NoNul(s)
    ensures NoNul(ReadProgram(s, quotes).argument) && NoNul(ReadProgram(s, quotes).rest)
    decreases |s|
  {
    if s == "" || (!quotes && Blank(s[0])) {
    } else {
      ReadProgramNoNul(s[1..], if s[0] == '"' then !quotes else quotes);
    }
  }

  lemma {:induction false} ReadArgumentsNoNul(s: string)
    requires NoNul(s)
    ensures forall a <- ReadArguments(s) :: NoNul(a)
    decreases |s|
  {
    if s == "" {
    } else {
      if Blank(s[0]) {
        ReadArgumentsNoNul(s[1..]);
      } else {
        ReadArgumentNoNul(s, false, 0);
        var rest := ReadArgument(s, false, 0).rest;
        if |rest| < |s| {
          ReadArgumentsNoNul(rest);
        }
      }
    }
  }

  // ---------------------------------------------------------------- round trip

  /** The program name needs no escape: it has no mark, and no backslash before a closing one. */
  predicate ProgramSurvives(program: string) {
    NoMark(program) && (Plain(program) || program == "" || program[|program| - 1] != '\\')
  }

  lemma ReadLineNoNul(line: string, self: string)
    requires NoNul(self)
    ensures ReadLine(line, self) != [] && forall a <- ReadLine(line, self) :: NoNul(a)
  {
    var s := UntilNul(line);
    UntilNulKeeps(line);
    ReadProgramNoNul(s, false);
    ReadArgumentsNoNul(ReadProgram(s, false).rest);
  }

  lemma JoinNoNul(arguments: seq<string>)
    requires arguments != [] && forall a <- arguments :: NoNul(a)
    ensures NoNul(Join(arguments)) && UntilNul(Join(arguments)) == Join(arguments)
  {
    EscapedNoNul(arguments[0], 0);
    TailNoNul(arguments[1..]);
    JoinIs(arguments);
    UntilNulKeeps(Join(arguments));
  }

  /** What the reader makes of the line: the program by its own rules, everything else as it was. */
  lemma JoinReads(arguments: seq<string>, self: string)
    requires arguments != [] && forall a <- arguments :: NoNul(a)
    ensures ReadLine(Join(arguments), self)[0] == arguments[0] <==> ProgramSurvives(arguments[0])
    ensures NoMark(arguments[0]) ==> ReadLine(Join(arguments), self)[1..] == arguments[1..]
  {
    hide Quoted, ReadProgram, ReadArguments, Join, Tail, UntilNul;
    var program, rest := arguments[0], Tail(arguments[1..]);
    JoinNoNul(arguments);
    JoinIs(arguments);
    QuotedStarts(program);
    ProgramHasNoMark(Quoted(program) + rest, false);
    if NoMark(program) {
      TailAtEnd(arguments[1..]);
      QuotedProgramReads(program, rest);
      TailReads(arguments[1..]);
      if program != "" {
        TrailingIs(program, 0);
      }
    }
  }

  lemma ProgramHasMark(program: string)
    ensures ProgramSurvives(program) ==> NoMark(program)
  {
  }

  /** Parsing the joined command line gives the arguments back exactly for these lists. */
  lemma ReadUndoesJoin(arguments: seq<string>, self: string)
    requires NoNul(self)
    ensures ReadLine(Join(arguments), self) == arguments <==>
      (arguments != [] && ProgramSurvives(arguments[0]) && forall a <- arguments :: NoNul(a))
  {
    hide ReadLine, Join, NoNul, NoMark, Plain, ProgramSurvives;
    var read := ReadLine(Join(arguments), self);
    ReadLineNoNul(Join(arguments), self);
    if arguments != [] && forall a <- arguments :: NoNul(a) {
      JoinReads(arguments, self);
      assert ProgramSurvives(arguments[0]) ==> NoMark(arguments[0]) by { ProgramHasMark(arguments[0]); }
      assert read == [read[0]] + read[1..] && arguments == [arguments[0]] + arguments[1..];
    }
  }
}
