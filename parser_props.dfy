/** What the command parser guarantees: the error cases, the fail-fast
    position of `parseAllCommands`, and what parsing the printed text of a
    command list gives back. */
module ParserProperties {
  import opened Wrappers
  import opened Text
  import opened Commands
  import opened Parser

  /** On success the command is the matched name applied to exactly the
      parsed numbers, in order. */
  lemma ParsedIsNameAndNumbers(line: string, number: NumberParser)
    requires ParseLine(line, number).Parsed?
    ensures MatchCall(Trim(line)).Some?
    ensures MatchCall(Trim(line)).value.name == NameOf(ParseLine(line, number).cmd)
    ensures ParseNumbers(Params(Trim(MatchCall(Trim(line)).value.args)), number)
            == Numbers(ArgsOf(ParseLine(line, number).cmd))
  {
    var m := MatchCall(Trim(line)).value;
    var ps := ParseNumbers(Params(Trim(m.args)), number).values;
    BuildInverse(m.name, ps);
  }

  /** A line is a syntax error exactly when it is not blank and not of the
      form `name(...)`. */
  lemma SyntaxError(line: string, number: NumberParser)
    ensures ParseLine(line, number) == Failed(InvalidSyntax(Trim(line)))
            <==> !IsBlank(line) && MatchCall(Trim(line)).None?
  {
  }

  /** A bad number names a token `parseFloat` rejects and the trimmed line.
      Parameters are parsed before the name is looked at, so a bad number is
      reported even for an unknown command. */
  lemma NumberError(line: string, number: NumberParser)
    requires ParseLine(line, number).Failed? && ParseLine(line, number).error.InvalidNumber?
    ensures MatchCall(Trim(line)).Some?
    ensures var e := ParseLine(line, number).error;
            number(e.token).None? && e.token in Params(Trim(MatchCall(Trim(line)).value.args))
            && e.line == Trim(line)
  {
    var found := MatchCall(Trim(line));
    assert found.Some?;
    var nums := ParseNumbers(Params(Trim(found.value.args)), number);
    assert nums.NotANumber?;
    assert ParseLine(line, number) == Failed(InvalidNumber(nums.token, Trim(line)));
  }

  /** An arity error names a known command, how many numbers it takes, and a
      different count that was given. */
  lemma ArityError(line: string, number: NumberParser)
    requires ParseLine(line, number).Failed? && ParseLine(line, number).error.WrongArity?
    ensures var e := ParseLine(line, number).error;
            Arity(e.command) == Some(e.expected) && e.got != e.expected
            && ParseNumbers(Params(Trim(MatchCall(Trim(line)).value.args)), number).Numbers?
            && |ParseNumbers(Params(Trim(MatchCall(Trim(line)).value.args)), number).values| == e.got
  {
    var found := MatchCall(Trim(line));
    assert found.Some?;
    var nums := ParseNumbers(Params(Trim(found.value.args)), number);
    assert nums.Numbers?;
    assert ParseLine(line, number) == Classify(found.value.name, nums.values);
  }

  /** An unknown command is reported only once all its parameters are numbers. */
  lemma UnknownError(line: string, number: NumberParser)
    requires ParseLine(line, number).Failed? && ParseLine(line, number).error.UnknownCommand?
    ensures var e := ParseLine(line, number).error;
            Arity(e.command).None? && MatchCall(Trim(line)).Some? && MatchCall(Trim(line)).value.name == e.command
            && ParseNumbers(Params(Trim(MatchCall(Trim(line)).value.args)), number).Numbers?
  {
    var found := MatchCall(Trim(line));
    assert found.Some?;
    var nums := ParseNumbers(Params(Trim(found.value.args)), number);
    assert nums.Numbers?;
    assert ParseLine(line, number) == Classify(found.value.name, nums.values);
  }

  /** The printer writes each of `vs` as a token the syntax reads back
      unchanged and `parseFloat` reads back as that very number. A printer
      that rounds (as a double does) meets this for the values it prints
      exactly, and for those only. */
  predicate PrintsBack(vs: seq<real>, show: real -> string, number: NumberParser)
  {
    Tokens(Shown(vs, show)) && ReadAs(Shown(vs, show), vs, number)
  }

  function Shown(vs: seq<real>, show: real -> string): (r: seq<string>)
    ensures |r| == |vs|
    ensures forall k :: 0 <= k < |vs| ==> r[k] == show(vs[k])
  {
    if vs == [] then [] else [show(vs[0])] + Shown(vs[1..], show)
  }

  /** The text `name(n1,n2,...)` of a command. */
  function Unparse(cmd: Command, show: real -> string): string
    requires Parseable(cmd)
  {
    CallText(NameOf(cmd), Shown(ArgsOf(cmd), show))
  }

  lemma {:induction false} JoinKeeps(parts: seq<string>, sep: char)
    requires forall k :: 0 <= k < |parts| ==> parts[k] != [] && IsTrimmed(parts[k]) && IsOneLine(parts[k])
    requires !IsJsSpace(sep) && !IsLineTerminator(sep)
    ensures IsTrimmed(Join(parts, sep)) && IsOneLine(Join(parts, sep))
    ensures Join(parts, sep) == [] <==> parts == []
  {
    if |parts| > 1 {
      JoinKeeps(parts[1..], sep);
      var j := Join(parts, sep);
      assert j == parts[0] + [sep] + Join(parts[1..], sep);
      assert j[0] == parts[0][0];
      assert j[|j| - 1] == Join(parts[1..], sep)[|Join(parts[1..], sep)| - 1];
    }
  }

  lemma NamesAreWords(cmd: Command)
    requires Parseable(cmd)
    ensures IsWord(NameOf(cmd))
  {
  }

  /** A trimmed line of the form `name(args)` whose arguments are all numbers
      is then classified by its name and the count of numbers. */
  lemma ParseOfCall(line: string, name: string, args: string, ps: seq<real>, number: NumberParser)
    requires line != [] && IsTrimmed(line)
    requires MatchCall(line) == Some(CallMatch(name, args))
    requires ParseNumbers(Params(Trim(args)), number) == Numbers(ps)
    ensures ParseLine(line, number) == Classify(name, ps)
  {
  }

  /** A command the syntax can express is fixed by its name and numbers. */
  lemma SameNameAndArgs(a: Command, b: Command)
    requires Parseable(a) && Parseable(b)
    requires NameOf(a) == NameOf(b) && ArgsOf(a) == ArgsOf(b)
    ensures a == b
  {
    NameAndArgsBuild(a);
    NameAndArgsBuild(b);
  }

  /** The text of a call is one non-empty trimmed line. */
  lemma CallTextIsLine(name: string, parts: seq<string>)
    requires IsWord(name) && Tokens(parts)
    ensures var line := CallText(name, parts);
            line != [] && IsTrimmed(line) && IsOneLine(line)
  {
    var args := Join(parts, ',');
    var line := CallText(name, parts);
    JoinKeeps(parts, ',');
    assert line == name + "(" + args + ")";
    assert line[0] == name[0] && line[|line| - 1] == ')';
    WordCharIsNotSpace(name[0]);
    forall k | 0 <= k < |line| ensures !IsLineTerminator(line[k]) {
      if k < |name| {
        assert line[k] == name[k];
      } else if |name| < k < |line| - 1 {
        assert line[k] == args[k - |name| - 1];
      }
    }
  }

  /** Parsing the printed text of a command gives the command back when its
      numbers print back; `ParseMisread` and `ParseUnreadable` give the other
      cases. */
  lemma ParseUnparse(cmd: Command, show: real -> string, number: NumberParser)
    requires Parseable(cmd) && PrintsBack(ArgsOf(cmd), show, number)
    ensures ParseLine(Unparse(cmd, show), number) == Parsed(cmd)
  {
    CallLine(NameOf(cmd), Shown(ArgsOf(cmd), show), ArgsOf(cmd), number);
    NameAndArgsBuild(cmd);
    SameNameAndArgs(Classify(NameOf(cmd), ArgsOf(cmd)).cmd, cmd);
  }

  /** A printer whose tokens `parseFloat` reads as other values (a double
      rounds them) gives back a command of the same kind holding the values
      read. */
  lemma ParseMisread(cmd: Command, show: real -> string, number: NumberParser, read: seq<real>)
    requires Parseable(cmd) && Tokens(Shown(ArgsOf(cmd), show))
    requires ReadAs(Shown(ArgsOf(cmd), show), read, number)
    ensures var r := ParseLine(Unparse(cmd, show), number);
            r.Parsed? && NameOf(r.cmd) == NameOf(cmd) && ArgsOf(r.cmd) == read
  {
    CallLine(NameOf(cmd), Shown(ArgsOf(cmd), show), read, number);
    NameAndArgsBuild(cmd);
  }

  /** A printed number `parseFloat` reads as NaN makes the printed line an
      error naming the first such token and the line. */
  lemma ParseUnreadable(cmd: Command, show: real -> string, number: NumberParser, i: nat)
    requires Parseable(cmd) && Tokens(Shown(ArgsOf(cmd), show))
    requires i < |ArgsOf(cmd)| && number(show(ArgsOf(cmd)[i])).None?
    requires forall j :: 0 <= j < i ==> number(show(ArgsOf(cmd)[j])).Some?
    ensures ParseLine(Unparse(cmd, show), number)
            == Failed(InvalidNumber(show(ArgsOf(cmd)[i]), Unparse(cmd, show)))
  {
    var parts := Shown(ArgsOf(cmd), show);
    forall j | 0 <= j < i ensures number(parts[j]).Some? {
      assert parts[j] == show(ArgsOf(cmd)[j]);
    }
    assert parts[i] == show(ArgsOf(cmd)[i]);
    CallLineBadNumber(NameOf(cmd), parts, i, number);
  }

  /** A line `name(p1,...,pn)` is an invalid-number error naming the first
      token `parseFloat` reads as NaN. */
  lemma CallLineBadNumber(name: string, parts: seq<string>, i: nat, number: NumberParser)
    requires IsWord(name) && Tokens(parts)
    requires i < |parts| && number(parts[i]).None?
    requires forall j :: 0 <= j < i ==> number(parts[j]).Some?
    ensures ParseLine(CallText(name, parts), number) == Failed(InvalidNumber(parts[i], CallText(name, parts)))
  {
    ArgumentsText(parts, name);
    CallTextIsLine(name, parts);
    StopsAtFirstNaN(parts, number, i);
    BadNumberInCall(CallText(name, parts), name, Join(parts, ','), parts[i], number);
  }

  /** A trimmed line of the form `name(args)` with an argument that is not
      a number is reported with that token. */
  lemma BadNumberInCall(line: string, name: string, args: string, token: string, number: NumberParser)
    requires line != [] && IsTrimmed(line)
    requires MatchCall(line) == Some(CallMatch(name, args))
    requires ParseNumbers(Params(Trim(args)), number) == NotANumber(token)
    ensures ParseLine(line, number) == Failed(InvalidNumber(token, line))
  {
  }

  /** `translate(1,2)` printed with the whole numbers written plainly
      parses back to the same command. */
  lemma TranslateRoundTrip(number: NumberParser)
    requires number("1") == Some(1.0) && number("2") == Some(2.0)
    ensures var show := (v: real) => if v == 1.0 then "1" else "2";
            ParseLine(Unparse(Translate(1.0, 2.0), show), number) == Parsed(Translate(1.0, 2.0))
  {
    var show := (v: real) => if v == 1.0 then "1" else "2";
    assert Shown([1.0, 2.0], show) == ["1", "2"];
    assert PrintsBack([1.0, 2.0], show, number);
    ParseUnparse(Translate(1.0, 2.0), show, number);
  }

  /** The printed text of a command is one non-empty trimmed line. */
  lemma UnparseIsLine(cmd: Command, show: real -> string)
    requires Parseable(cmd) && Tokens(Shown(ArgsOf(cmd), show))
    ensures Unparse(cmd, show) != [] && IsTrimmed(Unparse(cmd, show)) && IsOneLine(Unparse(cmd, show))
  {
    CallTextIsLine(NameOf(cmd), Shown(ArgsOf(cmd), show));
  }

  /** The text `name(p1,...)` is matched by the call pattern with these
      groups, and its parameter text reads back as the tokens. */
  lemma ArgumentsText(parts: seq<string>, name: string)
    requires IsWord(name) && Tokens(parts)
    ensures MatchCall(CallText(name, parts)) == Some(CallMatch(name, Join(parts, ',')))
    ensures Params(Trim(Join(parts, ','))) == parts
  {
    JoinKeeps(parts, ',');
    MatchCallComplete(name, Join(parts, ','));
    TrimmedPieces(parts);
  }

  lemma WordCharIsNotSpace(ch: char)
    requires IsWordChar(ch)
    ensures !IsJsSpace(ch)
  {
  }

  /** The parameter text of trimmed, comma-free, one-line tokens reads back
      as those tokens. */
  lemma TrimmedPieces(parts: seq<string>)
    requires Tokens(parts)
    ensures Params(Trim(Join(parts, ','))) == parts
  {
    JoinKeeps(parts, ',');
    var args := Join(parts, ',');
    assert Trim(args) == args;
    if parts != [] {
      SplitJoin(parts, ',');
      var tokens := Params(args);
      forall j | 0 <= j < |parts| ensures tokens[j] == parts[j] {
        assert Trim(parts[j]) == parts[j];
      }
    }
  }

  /** Parameter tokens the syntax reads back unchanged: non-empty, trimmed,
      on one line, without a comma. */
  predicate Tokens(parts: seq<string>)
  {
    forall k :: 0 <= k < |parts| ==> parts[k] != [] && IsTrimmed(parts[k]) && IsOneLine(parts[k]) && ',' !in parts[k]
  }

  /** `parseFloat` reads each token as the number at the same position. */
  predicate ReadAs(parts: seq<string>, values: seq<real>, number: NumberParser)
  {
    |values| == |parts| && forall k :: 0 <= k < |parts| ==> number(parts[k]) == Some(values[k])
  }

  /** The text `name(p1,...,pn)`. */
  function CallText(name: string, parts: seq<string>): string
  {
    name + "(" + Join(parts, ',') + ")"
  }

  /** A line `name(p1,...,pn)` whose tokens all read as numbers is decided
      by the name and the count of numbers alone. */
  lemma CallLine(name: string, parts: seq<string>, values: seq<real>, number: NumberParser)
    requires IsWord(name) && Tokens(parts) && ReadAs(parts, values, number)
    ensures ParseLine(CallText(name, parts), number) == Classify(name, values)
  {
    ArgumentsText(parts, name);
    CallTextIsLine(name, parts);
    AllNumbers(parts, number, values);
    ParseOfCall(CallText(name, parts), name, Join(parts, ','), values, number);
  }

  /** `translate(1,2,3)` is an arity error: 2 expected, 3 given. */
  lemma TooManyArguments(number: NumberParser)
    requires number("1") == Some(1.0) && number("2") == Some(2.0) && number("3") == Some(3.0)
    ensures ParseLine(CallText("translate", ["1", "2", "3"]), number) == Failed(WrongArity("translate", 2, 3))
  {
    CallLine("translate", ["1", "2", "3"], [1.0, 2.0, 3.0], number);
  }

  /** Neither name is in the command table. */
  lemma NotCommandNames()
    ensures Arity("foo").None? && Arity("triangle").None?
  {
  }

  /** `foo(1)` names no command. */
  lemma UnknownName(number: NumberParser)
    requires number("1") == Some(1.0)
    ensures ParseLine(CallText("foo", ["1"]), number) == Failed(UnknownCommand("foo"))
  {
    NotCommandNames();
    CallLine("foo", ["1"], [1.0], number);
  }

  /** The renderer draws triangles, but the text syntax has no triangle command. */
  lemma TriangleNotInSyntax(number: NumberParser)
    requires number("1") == Some(1.0) && number("2") == Some(2.0)
    ensures ParseLine(CallText("triangle", ["1", "2"]), number) == Failed(UnknownCommand("triangle"))
  {
    NotCommandNames();
    CallLine("triangle", ["1", "2"], [1.0, 2.0], number);
  }

  /** The non-empty lines from position `i` on. */
  function NonBlankLines(lines: seq<string>, i: nat): seq<string>
    requires i <= |lines|
    decreases |lines| - i
  {
    if i == |lines| then []
    else if lines[i] == "" then NonBlankLines(lines, i + 1)
    else [lines[i]] + NonBlankLines(lines, i + 1)
  }

  /** A trimmed line the loop of parseAllCommands gets past: empty, or not
      an error. */
  predicate LineOk(line: string, parse: string -> LineResult)
  {
    line == "" || !parse(line).Failed?
  }

  /** The loop fails exactly when some line fails. */
  lemma {:induction false} FailsIffSomeLineFails(lines: seq<string>, i: nat, parse: string -> LineResult)
    requires i <= |lines|
    ensures ParseLines(lines, i, parse).error.Some? <==> exists j :: i <= j < |lines| && !LineOk(lines[j], parse)
    decreases |lines| - i
  {
    if i < |lines| {
      FailsIffSomeLineFails(lines, i + 1, parse);
      if LineOk(lines[i], parse) {
        if exists j :: i <= j < |lines| && !LineOk(lines[j], parse) {
          var j :| i <= j < |lines| && !LineOk(lines[j], parse);
          assert j != i;
        }
      }
    }
  }

  /** On failure the list is empty and the error names the first bad line,
      counted from 1 over the whole text, blank lines included. */
  lemma {:induction false} FirstBadLine(lines: seq<string>, i: nat, parse: string -> LineResult)
    requires i <= |lines|
    requires ParseLines(lines, i, parse).error.Some?
    ensures var r := ParseLines(lines, i, parse);
            var n := r.error.value.lineNumber;
            r.transforms == [] && i < n <= |lines|
            && lines[n - 1] != "" && parse(lines[n - 1]) == Failed(r.error.value.error)
            && forall j :: i <= j < n - 1 ==> LineOk(lines[j], parse)
    decreases |lines| - i
  {
    if LineOk(lines[i], parse) {
      FirstBadLine(lines, i + 1, parse);
    }
  }

  /** With a line parser that never calls a non-empty line blank, a run
      without error gives one command per non-empty line, in order: the
      command that line parses to. */
  lemma {:induction false} OneCommandPerLine(lines: seq<string>, i: nat, parse: string -> LineResult)
    requires i <= |lines|
    requires forall k :: i <= k < |lines| && lines[k] != "" ==> !parse(lines[k]).Blank?
    requires ParseLines(lines, i, parse).error.None?
    ensures var r := ParseLines(lines, i, parse);
            |r.transforms| == |NonBlankLines(lines, i)|
            && forall k :: 0 <= k < |r.transforms| ==> parse(NonBlankLines(lines, i)[k]) == Parsed(r.transforms[k])
    decreases |lines| - i
  {
    if i < |lines| {
      OneCommandPerLine(lines, i + 1, parse);
      if lines[i] != "" {
        var r := ParseLines(lines, i, parse);
        var rest := ParseLines(lines, i + 1, parse);
        var cmd := parse(lines[i]).cmd;
        assert r.transforms == [cmd] + rest.transforms;
        assert NonBlankLines(lines, i) == [lines[i]] + NonBlankLines(lines, i + 1);
        forall k | 1 <= k < |r.transforms|
          ensures parse(NonBlankLines(lines, i)[k]) == Parsed(r.transforms[k])
        {
          assert r.transforms[k] == rest.transforms[k - 1];
          assert NonBlankLines(lines, i)[k] == NonBlankLines(lines, i + 1)[k - 1];
        }
      }
    }
  }

  /** parseCommand never calls a trimmed, non-empty line blank. */
  lemma TrimmedLineNotBlank(line: string, number: NumberParser)
    requires line != "" && IsTrimmed(line)
    ensures !ParseLine(line, number).Blank?
  {
    assert !IsJsSpace(line[0]);
  }

  /** parseAllCommands of a text fails exactly when some trimmed line of it
      fails to parse. */
  lemma ParseAllFails(text: string, number: NumberParser)
    ensures ParseAll(text, number).error.Some? <==> SomeLineFails(TrimAll(Split(text, '\n')), LineParser(number))
  {
    FailsIffSomeLineFails(TrimAll(Split(text, '\n')), 0, LineParser(number));
  }

  /** Some trimmed line fails to parse. */
  predicate SomeLineFails(lines: seq<string>, parse: string -> LineResult)
  {
    exists j :: 0 <= j < |lines| && !LineOk(lines[j], parse)
  }

  /** On failure parseAllCommands returns no commands and reports the first
      failing line, with its 1-based number in the text and its error. */
  lemma ParseAllFirstBad(text: string, number: NumberParser)
    requires ParseAll(text, number).error.Some?
    ensures var lines := TrimAll(Split(text, '\n'));
            var r := ParseAll(text, number);
            var n := r.error.value.lineNumber;
            r.transforms == [] && 0 < n <= |lines|
            && ParseLine(lines[n - 1], number) == Failed(r.error.value.error)
            && forall j :: 0 <= j < n - 1 ==> LineOk(lines[j], LineParser(number))
  {
    FirstBadLine(TrimAll(Split(text, '\n')), 0, LineParser(number));
  }

  /** Without error parseAllCommands gives the command of every non-empty
      line, in order. */
  lemma ParseAllEachLine(text: string, number: NumberParser)
    requires ParseAll(text, number).error.None?
    ensures var lines := NonBlankLines(TrimAll(Split(text, '\n')), 0);
            var r := ParseAll(text, number);
            |r.transforms| == |lines|
            && forall k :: 0 <= k < |lines| ==> ParseLine(lines[k], number) == Parsed(r.transforms[k])
  {
    var lines := TrimAll(Split(text, '\n'));
    var parse := LineParser(number);
    forall k | 0 <= k < |lines| && lines[k] != ""
      ensures !parse(lines[k]).Blank?
    {
      TrimmedLineNotBlank(lines[k], number);
    }
    OneCommandPerLine(lines, 0, parse);
  }

  lemma NoLineFeed(s: string)
    requires IsOneLine(s)
    ensures '\n' !in s
  {
  }

  function UnparseAll(list: seq<Command>, show: real -> string): (r: seq<string>)
    requires forall k :: 0 <= k < |list| ==> Parseable(list[k])
    ensures |r| == |list|
    ensures forall k :: 0 <= k < |list| ==> r[k] == Unparse(list[k], show)
  {
    if list == [] then [] else [Unparse(list[0], show)] + UnparseAll(list[1..], show)
  }

  /** Each printed line is a non-empty trimmed line without a line feed
      that parses as its command. */
  lemma UnparsedLines(list: seq<Command>, show: real -> string, number: NumberParser)
    requires forall k :: 0 <= k < |list| ==> Parseable(list[k]) && PrintsBack(ArgsOf(list[k]), show, number)
    ensures var lines := UnparseAll(list, show);
            forall k :: 0 <= k < |lines| ==>
              lines[k] != "" && IsTrimmed(lines[k]) && '\n' !in lines[k]
              && ParseLine(lines[k], number) == Parsed(list[k])
  {
    var lines := UnparseAll(list, show);
    forall k | 0 <= k < |lines|
      ensures lines[k] != "" && IsTrimmed(lines[k]) && '\n' !in lines[k]
      ensures ParseLine(lines[k], number) == Parsed(list[k])
    {
      ParseUnparse(list[k], show, number);
      UnparseIsLine(list[k], show);
      NoLineFeed(lines[k]);
    }
  }

  /** Printing a list one command per line and parsing the text gives the list. */
  lemma ParseAllUnparse(list: seq<Command>, show: real -> string, number: NumberParser)
    requires forall k :: 0 <= k < |list| ==> Parseable(list[k]) && PrintsBack(ArgsOf(list[k]), show, number)
    ensures ParseAll(Join(UnparseAll(list, show), '\n'), number) == ParseAllResult(list, None)
  {
    if list == [] {
      assert Join(UnparseAll(list, show), '\n') == "";
      EmptyText(number);
    } else {
      ParseAllPrinted(list, show, number);
    }
  }

  /** An empty text holds no commands and no error. */
  lemma EmptyText(number: NumberParser)
    ensures ParseAll("", number) == ParseAllResult([], None)
  {
    assert Split("", '\n') == [""];
    assert TrimAll([""]) == [""];
    assert ParseLines([""], 1, LineParser(number)) == ParseAllResult([], None);
  }

  lemma ParseAllPrinted(list: seq<Command>, show: real -> string, number: NumberParser)
    requires list != []
    requires forall k :: 0 <= k < |list| ==> Parseable(list[k]) && PrintsBack(ArgsOf(list[k]), show, number)
    ensures ParseAll(Join(UnparseAll(list, show), '\n'), number) == ParseAllResult(list, None)
  {
    var lines := UnparseAll(list, show);
    UnparsedLines(list, show, number);
    SplitJoin(lines, '\n');
    TrimmedLines(lines);
    ParsesEachLine(lines, list, 0, LineParser(number));
  }

  lemma TrimmedLines(lines: seq<string>)
    requires forall k :: 0 <= k < |lines| ==> IsTrimmed(lines[k])
    ensures TrimAll(lines) == lines
  {
  }

  lemma {:induction false} ParsesEachLine(lines: seq<string>, list: seq<Command>, i: nat, parse: string -> LineResult)
    requires |lines| == |list| && i <= |lines|
    requires forall k :: 0 <= k < |lines| ==> lines[k] != "" && parse(lines[k]) == Parsed(list[k])
    ensures ParseLines(lines, i, parse) == ParseAllResult(list[i..], None)
    decreases |lines| - i
  {
    if i < |lines| {
      ParsesEachLine(lines, list, i + 1, parse);
      assert list[i..] == [list[i]] + list[i + 1..];
    }
  }
}
