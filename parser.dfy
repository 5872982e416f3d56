/** The free-text command parser of the "build your own" example in
    transformToy.js: `parseCommand` reads one line, `parseAllCommands` the
    whole text, stopping at the first bad line. `parseFloat` is a parameter
    (`number`): it gives a real or `None` for NaN. */
module Parser {
  import opened Wrappers
  import opened Text
  import opened Commands
  import G = Geometry

  /** `parseFloat` of a token: `None` stands for NaN. */
  type NumberParser = string -> Option<real>

  datatype ParseError =
    | InvalidSyntax(line: string)                       // not of the form name(...)
    | InvalidNumber(token: string, line: string)        // a parameter that parses as NaN
    | WrongArity(command: string, expected: nat, got: nat)
    | UnknownCommand(command: string)

  /** `{transform, error}`: both null for a blank line. */
  datatype LineResult = Blank | Parsed(cmd: Command) | Failed(error: ParseError)

  /** The parameters of a call, parsed left to right until the first NaN. */
  datatype Numbers = Numbers(values: seq<real>) | NotANumber(token: string)

  /** The parameters of a call, each number token already trimmed, parsed
      left to right; the first NaN stops the parse. */
  function ParseNumbers(tokens: seq<string>, number: NumberParser): (r: Numbers)
    ensures r.Numbers? ==> |r.values| == |tokens|
    ensures r.Numbers? ==> forall k :: 0 <= k < |tokens| ==> number(tokens[k]) == Some(r.values[k])
    ensures r.NotANumber? ==> number(r.token).None? && r.token in tokens
  {
    if tokens == [] then Numbers([])
    else
      match number(tokens[0])
      case None => NotANumber(tokens[0])
      case Some(v) =>
        var rest := ParseNumbers(tokens[1..], number);
        if rest.NotANumber? then rest
        else
          assert forall k :: 1 <= k < |tokens| ==> tokens[k] == tokens[1..][k - 1];
          Numbers([v] + rest.values)
  }

  /** The first NaN stops the parse and is the token reported. */
  lemma {:induction false} StopsAtFirstNaN(tokens: seq<string>, number: NumberParser, i: nat)
    requires i < |tokens| && number(tokens[i]).None?
    requires forall j :: 0 <= j < i ==> number(tokens[j]).Some?
    ensures ParseNumbers(tokens, number) == NotANumber(tokens[i])
  {
    if i > 0 {
      var tail := tokens[1..];
      assert tail[i - 1] == tokens[i];
      forall j | 0 <= j < i - 1
        ensures number(tail[j]).Some?
      {
        assert tail[j] == tokens[j + 1];
      }
      StopsAtFirstNaN(tail, number, i - 1);
    }
  }

  /** When every token is a number the parse gives exactly those numbers. */
  lemma {:induction false} AllNumbers(tokens: seq<string>, number: NumberParser, values: seq<real>)
    requires |values| == |tokens|
    requires forall j :: 0 <= j < |tokens| ==> number(tokens[j]) == Some(values[j])
    ensures ParseNumbers(tokens, number) == Numbers(values)
  {
    if tokens != [] {
      var tail, rest := tokens[1..], values[1..];
      forall j | 0 <= j < |tail|
        ensures number(tail[j]) == Some(rest[j])
      {
        assert tail[j] == tokens[j + 1] && rest[j] == values[j + 1];
      }
      AllNumbers(tail, number, rest);
      assert values == [values[0]] + rest;
    }
  }

  /** The trimmed pieces of `paramsStr.split(',')`; no parameters at all for
      an empty string. */
  function Params(paramsStr: string): (tokens: seq<string>)
    ensures paramsStr != "" ==> |tokens| == |Split(paramsStr, ',')|
    ensures paramsStr == "" ==> tokens == []
  {
    if paramsStr == "" then []
    else
      var parts := Split(paramsStr, ',');
      seq(|parts|, k requires 0 <= k < |parts| => Trim(parts[k]))
  }

  /** The number of parameters each command name takes; `None` for an unknown name. */
  function Arity(name: string): Option<nat>
  {
    if name == "translate" then Some(2)
    else if name == "scale" then Some(2)
    else if name == "rotate" then Some(1)
    else if name == "fillRect" then Some(4)
    else if name == "transform" then Some(6)
    else if name == "save" then Some(0)
    else if name == "restore" then Some(0)
    else None
  }

  function Build(name: string, ps: seq<real>): Command
    requires Arity(name) == Some(|ps|)
  {
    if name == "translate" then Translate(ps[0], ps[1])
    else if name == "scale" then Scale(ps[0], ps[1])
    else if name == "rotate" then Rotate(ps[0])
    else if name == "fillRect" then FillRect(ps[0], ps[1], ps[2], ps[3], DefaultColor)
    else if name == "transform" then Transform(G.Affine(ps[0], ps[1], ps[2], ps[3], ps[4], ps[5]))
    else if name == "save" then Save
    else Restore
  }

  /** The commands the text syntax can express, with the name and numbers
      they are written with. */
  predicate Parseable(cmd: Command)
  {
    cmd.Translate? || cmd.Scale? || cmd.Rotate? || cmd.Transform? || cmd.Save? || cmd.Restore?
    || (cmd.FillRect? && cmd.color == DefaultColor)
  }

  function NameOf(cmd: Command): string
    requires Parseable(cmd)
  {
    match cmd
    case Translate(_, _) => "translate"
    case Scale(_, _) => "scale"
    case Rotate(_) => "rotate"
    case FillRect(_, _, _, _, _) => "fillRect"
    case Transform(_) => "transform"
    case Save => "save"
    case Restore => "restore"
  }

  function ArgsOf(cmd: Command): seq<real>
    requires Parseable(cmd)
  {
    match cmd
    case Translate(x, y) => [x, y]
    case Scale(x, y) => [x, y]
    case Rotate(a) => [a]
    case FillRect(x, y, w, h, _) => [x, y, w, h]
    case Transform(m) => [m.a, m.b, m.c, m.d, m.e, m.f]
    case Save => []
    case Restore => []
  }

  /** A known name with the right number of parameters builds a command
      written with exactly that name and those numbers. */
  lemma BuildInverse(name: string, ps: seq<real>)
    requires Arity(name) == Some(|ps|)
    ensures Parseable(Build(name, ps))
    ensures NameOf(Build(name, ps)) == name && ArgsOf(Build(name, ps)) == ps
  {
    if name == "translate" {
    } else if name == "scale" {
    } else if name == "rotate" {
    } else if name == "fillRect" {
    } else if name == "transform" {
    } else if name == "save" {
    } else {
      assert name == "restore";
    }
  }

  /** Every command the syntax can express is built back from its name and numbers. */
  lemma NameAndArgsBuild(cmd: Command)
    requires Parseable(cmd)
    ensures Arity(NameOf(cmd)) == Some(|ArgsOf(cmd)|)
    ensures Build(NameOf(cmd), ArgsOf(cmd)) == cmd
  {
  }

  /** The last step of parseCommand: the name must be known and take exactly
      as many numbers as were given. */
  function Classify(name: string, ps: seq<real>): (r: LineResult)
    ensures r.Parsed? <==> Arity(name) == Some(|ps|)
    ensures r.Parsed? ==> Parseable(r.cmd) && NameOf(r.cmd) == name && ArgsOf(r.cmd) == ps
    ensures !r.Parsed? ==> r.Failed? && r.error == (if Arity(name).None? then UnknownCommand(name)
                                                    else WrongArity(name, Arity(name).value, |ps|))
  {
    match Arity(name)
    case None => Failed(UnknownCommand(name))
    case Some(n) =>
      if |ps| != n then Failed(WrongArity(name, n, |ps|))
      else BuildInverse(name, ps); Parsed(Build(name, ps))
  }

  /** parseCommand as a function of the line. On success the command is the
      matched name applied to exactly the parsed numbers, in order. */
  function ParseLine(line: string, number: NumberParser): (r: LineResult)
    ensures r.Blank? <==> IsBlank(line)
    ensures r.Parsed? ==> Parseable(r.cmd)
  {
    var l := Trim(line);
    if l == "" then Blank
    else
      match MatchCall(l)
      case None => Failed(InvalidSyntax(l))
      case Some(m) =>
        match ParseNumbers(Params(Trim(m.args)), number)
        case NotANumber(token) => Failed(InvalidNumber(token, l))
        case Numbers(ps) => Classify(m.name, ps)
  }

  /** parseCommand: trim, match the call shape, parse every parameter, then
      check the name and its arity. */
  method ParseCommand(line: string, number: NumberParser) returns (r: LineResult)
    ensures r == ParseLine(line, number)
  {
    var l := Trim(line);
    if l == "" {
      return Blank;
    }
    var found := MatchCall(l);
    if found.None? {
      return Failed(InvalidSyntax(l));
    }
    var command := found.value.name;
    var parsed := ParseParams(Trim(found.value.args), number);
    if parsed.NotANumber? {
      return Failed(InvalidNumber(parsed.token, l));
    }
    var params := parsed.values;
    if command == "translate" {
      if |params| != 2 {
        return Failed(WrongArity("translate", 2, |params|));
      }
      return Parsed(Translate(params[0], params[1]));
    } else if command == "scale" {
      if |params| != 2 {
        return Failed(WrongArity("scale", 2, |params|));
      }
      return Parsed(Scale(params[0], params[1]));
    } else if command == "rotate" {
      if |params| != 1 {
        return Failed(WrongArity("rotate", 1, |params|));
      }
      return Parsed(Rotate(params[0]));
    } else if command == "fillRect" {
      if |params| != 4 {
        return Failed(WrongArity("fillRect", 4, |params|));
      }
      return Parsed(FillRect(params[0], params[1], params[2], params[3], DefaultColor));
    } else if command == "transform" {
      if |params| != 6 {
        return Failed(WrongArity("transform", 6, |params|));
      }
      return Parsed(Transform(G.Affine(params[0], params[1], params[2], params[3], params[4], params[5])));
    } else if command == "save" {
      if |params| != 0 {
        return Failed(WrongArity("save", 0, |params|));
      }
      return Parsed(Save);
    } else if command == "restore" {
      if |params| != 0 {
        return Failed(WrongArity("restore", 0, |params|));
      }
      return Parsed(Restore);
    } else {
      return Failed(UnknownCommand(command));
    }
  }

  /** The parameters of parseCommand: split at commas, each piece trimmed
      and read with `parseFloat`. */
  method ParseParams(paramsStr: string, number: NumberParser) returns (r: Numbers)
    ensures r == ParseNumbers(Params(paramsStr), number)
  {
    var paramParts := Params(paramsStr);
    r := ParseTokens(paramParts, number);
  }

  /** The parameter loop of parseCommand: `parseFloat` each piece in turn and
      stop at the first NaN. */
  method ParseTokens(paramParts: seq<string>, number: NumberParser) returns (r: Numbers)
    ensures r == ParseNumbers(paramParts, number)
  {
    var params: seq<real> := [];
    var i := 0;
    while i < |paramParts|
      invariant 0 <= i <= |paramParts|
      invariant |params| == i
      invariant forall k :: 0 <= k < i ==> number(paramParts[k]) == Some(params[k])
    {
      var num := number(paramParts[i]);
      if num.None? {
        StopsAtFirstNaN(paramParts, number, i);
        return NotANumber(paramParts[i]);
      }
      params := params + [num.value];
      i := i + 1;
    }
    AllNumbers(paramParts, number, params);
    return Numbers(params);
  }

  /** An error of parseAllCommands: the 1-based position of the bad line in
      the whole text (blank lines counted) and what was wrong with it. */
  datatype LineError = LineError(lineNumber: nat, error: ParseError)

  /** `{transforms, error}`: on an error the list is empty. */
  datatype ParseAllResult = ParseAllResult(transforms: seq<Command>, error: Option<LineError>)

  /** The commands already collected, in front of what the remaining lines give. */
  function Prepend(done: seq<Command>, r: ParseAllResult): ParseAllResult
  {
    if r.error.Some? then r else ParseAllResult(done + r.transforms, None)
  }

  lemma PrependTwice(a: seq<Command>, b: seq<Command>, r: ParseAllResult)
    ensures Prepend(a, Prepend(b, r)) == Prepend(a + b, r)
  {
    if r.error.None? {
      assert a + (b + r.transforms) == (a + b) + r.transforms;
    }
  }

  /** Every line trimmed, each at its own position. */
  function TrimAll(lines: seq<string>): (r: seq<string>)
    ensures |r| == |lines|
  {
    seq(|lines|, k requires 0 <= k < |lines| => Trim(lines[k]))
  }

  /** The loop of parseAllCommands from line `i` on, over the trimmed lines,
      for a line parser `parse` that is given each non-empty one. */
  function ParseLines(lines: seq<string>, i: nat, parse: string -> LineResult): ParseAllResult
    requires i <= |lines|
    decreases |lines| - i
  {
    if i == |lines| then ParseAllResult([], None)
    else
      var rest := ParseLines(lines, i + 1, parse);
      if lines[i] == "" then rest
      else
        match parse(lines[i])
        case Failed(e) => ParseAllResult([], Some(LineError(i + 1, e)))
        case Parsed(cmd) => Prepend([cmd], rest)
        case Blank => rest
  }

  /** parseCommand with a fixed `parseFloat`, as a function of the line.
      It only gives the lambda a name, so that `ParseAll`, `ReadLines` and
      the lemmas about them all speak of the same function value. */
  function LineParser(number: NumberParser): (parse: string -> LineResult)
    ensures forall line :: parse(line) == ParseLine(line, number)
  {
    line => ParseLine(line, number)
  }

  /** parseAllCommands: the text split at line feeds and trimmed line by line,
      each non-empty line read by parseCommand. */
  function ParseAll(text: string, number: NumberParser): ParseAllResult
  {
    ParseLines(TrimAll(Split(text, '\n')), 0, LineParser(number))
  }

  /** parseAllCommands with the text area's contents passed in. */
  method ParseAllCommands(text: string, number: NumberParser) returns (r: ParseAllResult)
    ensures r == ParseAll(text, number)
  {
    r := ReadLines(Split(text, '\n'), number, LineParser(number));
  }

  /** The loop of parseAllCommands: trim each line, skip the empty ones, stop
      at the first error. `parse` names what parseCommand computes. */
  method ReadLines(lines: seq<string>, number: NumberParser, ghost parse: string -> LineResult)
    returns (r: ParseAllResult)
    requires forall line :: parse(line) == ParseLine(line, number)
    ensures r == ParseLines(TrimAll(lines), 0, parse)
  {
    ghost var trimmed := TrimAll(lines);
    var transforms: seq<Command> := [];
    var i := 0;
    while i < |lines|
      invariant 0 <= i <= |lines|
      invariant ParseLines(trimmed, 0, parse) == Prepend(transforms, ParseLines(trimmed, i, parse))
    {
      var line := Trim(lines[i]);
      assert line == trimmed[i];
      if line == "" {
        i := i + 1;
        continue;
      }
      var result := ParseCommand(line, number);
      assert result == parse(line);
      if result.Failed? {
        FailedHere(trimmed, i, parse, transforms);
        return ParseAllResult([], Some(LineError(i + 1, result.error)));
      }
      if result.Parsed? {
        PrependTwice(transforms, [result.cmd], ParseLines(trimmed, i + 1, parse));
        transforms := transforms + [result.cmd];
      }
      i := i + 1;
    }
    assert transforms + [] == transforms;
    return ParseAllResult(transforms, None);
  }

  /** The first failing line ends the whole parse with its error. */
  lemma FailedHere(trimmed: seq<string>, i: nat, parse: string -> LineResult, transforms: seq<Command>)
    requires i < |trimmed| && trimmed[i] != "" && parse(trimmed[i]).Failed?
    requires ParseLines(trimmed, 0, parse) == Prepend(transforms, ParseLines(trimmed, i, parse))
    ensures ParseLines(trimmed, 0, parse) == ParseAllResult([], Some(LineError(i + 1, parse(trimmed[i]).error)))
  {
  }
}
