/**
 * The sender's command table (client/src/sender/input_parser.py): the `Input` commands,
 * the module-level `parser` built from the generic command parser, and the prompt loop
 * `get_user_input`, which lower-cases each line and asks again after a `ValueError`.
 */
module InputParsing {
  import opened Wrappers
  import opened PyText
  import opened CommandParsing

  /** The `Input` enum; its members are distinct constructors, as `@enum.unique` demands. */
  datatype Input = Quit | Reload | Next | Previous | Duration | StartTime | SetSong

  /** What Python's `float` and `int` produce as argument values. */
  datatype Arg = FloatArg(f: real) | IntArg(n: int)

  /** Python's `float` as an argument type, given the conversion it performs. */
  function FloatType(toFloat: string -> Option<real>): Converter<Arg> {
    s => if toFloat(s).Some? then Some(FloatArg(toFloat(s).value)) else None
  }

  /** Python's `int` as an argument type, given the conversion it performs. */
  function IntType(toInt: string -> Option<int>): Converter<Arg> {
    s => if toInt(s).Some? then Some(IntArg(toInt(s).value)) else None
  }

  /** The rule list handed to `CommandParser`, in its order. */
  function SenderRules(toFloat: string -> Option<real>, toInt: string -> Option<int>): seq<Rule<Input, Arg>> {
    [ Rule(Next, ["n", "next"], []),
      Rule(Previous, ["p", "prev", "previous"], []),
      Rule(Quit, ["q", "quit"], []),
      Rule(Reload, ["r", "reload"], []),
      Rule(StartTime, ["s", "start"], [FloatType(toFloat)]),
      Rule(SetSong, ["i"], [IntType(toInt)]) ]
  }

  /** The default rule: anything else is a duration in seconds. */
  function SenderDefault(toFloat: string -> Option<real>): StrParser<Input, Arg> {
    StrParser(Duration, [FloatType(toFloat)])
  }

  /** The twelve aliases, each with the command and the argument types it stands for. */
  function SenderTable(toFloat: string -> Option<real>, toInt: string -> Option<int>): map<string, StrParser<Input, Arg>> {
    map[
      "n" := StrParser(Next, []), "next" := StrParser(Next, []),
      "p" := StrParser(Previous, []), "prev" := StrParser(Previous, []), "previous" := StrParser(Previous, []),
      "q" := StrParser(Quit, []), "quit" := StrParser(Quit, []),
      "r" := StrParser(Reload, []), "reload" := StrParser(Reload, []),
      "s" := StrParser(StartTime, [FloatType(toFloat)]), "start" := StrParser(StartTime, [FloatType(toFloat)]),
      "i" := StrParser(SetSong, [IntType(toInt)])
    ]
  }

  /** The aliases that take no argument. */
  const ZeroArgAliases: set<string> := {"n", "next", "p", "prev", "previous", "q", "quit", "r", "reload"}

  lemma RegisterOne<C, V>(m: map<string, StrParser<C, V>>, id: C, a: string, types: seq<Converter<V>>)
    ensures Register(m, Rule(id, [a], types)) == m[a := StrParser(id, types)]
  {
  }

  lemma RegisterTwo<C, V>(m: map<string, StrParser<C, V>>, id: C, a: string, b: string, types: seq<Converter<V>>)
    ensures Register(m, Rule(id, [a, b], types)) == m[a := StrParser(id, types)][b := StrParser(id, types)]
  {
  }

  lemma RegisterThree<C, V>(m: map<string, StrParser<C, V>>, id: C, a: string, b: string, c: string, types: seq<Converter<V>>)
    ensures Register(m, Rule(id, [a, b, c], types)) == m[a := StrParser(id, types)][b := StrParser(id, types)][c := StrParser(id, types)]
  {
  }

  /** Registering the rule list yields exactly the table above. */
  lemma SenderActions(toFloat: string -> Option<real>, toInt: string -> Option<int>)
    ensures Actions(SenderRules(toFloat, toInt)) == SenderTable(toFloat, toInt)
  {
    var rules := SenderRules(toFloat, toInt);
    var none: seq<Converter<Arg>> := [];
    var fl, it := [FloatType(toFloat)], [IntType(toInt)];
    assert rules[..0] == [];
    ActionsPrefixStep(rules, 0);
    RegisterTwo(map[], Next, "n", "next", none);
    ActionsPrefixStep(rules, 1);
    RegisterThree(Actions(rules[..1]), Previous, "p", "prev", "previous", none);
    ActionsPrefixStep(rules, 2);
    RegisterTwo(Actions(rules[..2]), Quit, "q", "quit", none);
    ActionsPrefixStep(rules, 3);
    RegisterTwo(Actions(rules[..3]), Reload, "r", "reload", none);
    ActionsPrefixStep(rules, 4);
    RegisterTwo(Actions(rules[..4]), StartTime, "s", "start", fl);
    ActionsPrefixStep(rules, 5);
    RegisterOne(Actions(rules[..5]), SetSong, "i", it);
    assert rules == rules[..6];
  }

  /** No alias appears in two rules, so the order of registration does not matter. */
  lemma SenderAliasesDistinct(toFloat: string -> Option<real>, toInt: string -> Option<int>)
    ensures var rules := SenderRules(toFloat, toInt);
      forall i, j | 0 <= i < j < |rules| :: forall a | a in rules[i].aliases :: a !in rules[j].aliases
  {
  }

  /** The entries of the table the examples below look up, read off once. */
  lemma SenderTableEntries(toFloat: string -> Option<real>, toInt: string -> Option<int>)
    ensures var t := SenderTable(toFloat, toInt);
      && "n" in t && t["n"] == StrParser(Next, []) && "next" in t && t["next"] == StrParser(Next, [])
      && "start" in t && t["start"] == StrParser(StartTime, [FloatType(toFloat)])
      && "i" in t && t["i"] == StrParser(SetSong, [IntType(toInt)])
      && "7.25" !in t && "1" !in t
  {
  }

  /** The example lines below, as the blanks, words and gaps the parser splits them into. */
  lemma Unpadded(w: string)
    ensures "" + w + "" == w
  {
  }

  lemma Spaced(a: char, b: char)
    ensures "" + [a] + " " + [b] == [a, ' ', b]
  {
  }

  /** The module-level `parser`. */
  ghost predicate IsSenderParser(p: CommandParser<Input, Arg>, toFloat: string -> Option<real>, toInt: string -> Option<int>)
    reads p
  {
    p.defaultAction == SenderDefault(toFloat) && p.actions == SenderTable(toFloat, toInt)
  }

  /** Builds the module-level `parser`. */
  method NewSenderParser(toFloat: string -> Option<real>, toInt: string -> Option<int>) returns (p: CommandParser<Input, Arg>)
    ensures fresh(p) && IsSenderParser(p, toFloat, toInt)
  {
    p := new CommandParser(Duration, [FloatType(toFloat)], SenderRules(toFloat, toInt));
    SenderActions(toFloat, toInt);
  }

  /** The argument shapes the player relies on for each command. */
  predicate ArgsFit(input: Input, args: seq<Arg>) {
    match input
    case Quit | Reload | Next | Previous => args == []
    case Duration | StartTime => |args| == 1 && args[0].FloatArg?
    case SetSong => |args| == 1 && args[0].IntArg?
  }

  /** The argument types a rule of the sender's table carries for its command. */
  ghost predicate EntryFits(sp: StrParser<Input, Arg>, toFloat: string -> Option<real>, toInt: string -> Option<int>) {
    || (sp.inputType in {Quit, Reload, Next, Previous} && sp.types == [])
    || (sp.inputType in {Duration, StartTime} && sp.types == [FloatType(toFloat)])
    || (sp.inputType == SetSong && sp.types == [IntType(toInt)])
  }

  lemma SenderTableFits(toFloat: string -> Option<real>, toInt: string -> Option<int>)
    ensures EntryFits(SenderDefault(toFloat), toFloat, toInt)
    ensures forall a | a in SenderTable(toFloat, toInt) :: EntryFits(SenderTable(toFloat, toInt)[a], toFloat, toInt)
  {
  }

  /** Every command the sender parser accepts comes with the arguments its command expects. */
  lemma SenderResultsFit(p: CommandParser<Input, Arg>, toFloat: string -> Option<real>, toInt: string -> Option<int>, line: string)
    requires IsSenderParser(p, toFloat, toInt)
    ensures p.Parse(line).Ok? ==> ArgsFit(p.Parse(line).value.0, p.Parse(line).value.1)
  {
    var r := p.Parse(line);
    if r.Ok? {
      var parts := SplitOnce(line);
      var sp := if parts[0] in p.actions then p.actions[parts[0]] else p.defaultAction;
      assert EntryFits(sp, toFloat, toInt) by {
        SenderTableFits(toFloat, toInt);
      }
      assert r.value.0 == sp.inputType && |r.value.1| == |sp.types|;
      if |sp.types| == 1 {
        var arg := if parts[0] in p.actions then parts[1] else parts[0];
        assert sp.types[0](arg) == Some(r.value.1[0]);
      }
    }
  }

  /** A zero-argument alias followed by more text is rejected by the arity check ("n 5"). */
  lemma SenderZeroArgWithText(p: CommandParser<Input, Arg>, toFloat: string -> Option<real>, toInt: string -> Option<int>,
                              lead: string, alias: string, gap: string, rest: string)
    requires IsSenderParser(p, toFloat, toInt)
    requires alias in ZeroArgAliases
    requires Blank(lead) && Blank(gap) && gap != [] && rest != [] && StartsSolid(rest)
    ensures p.Parse(lead + alias + gap + rest) == Err(ArityMismatch(0, 1))
  {
    ZeroArgEntry(toFloat, toInt, alias);
    SplitOnceOfTwo(lead, alias, gap, rest);
  }

  lemma ZeroArgEntry(toFloat: string -> Option<real>, toInt: string -> Option<int>, a: string)
    requires a in ZeroArgAliases
    ensures IsWord(a) && a in SenderTable(toFloat, toInt) && SenderTable(toFloat, toInt)[a].types == []
  {
  }

  /** A first word that is no alias sends every part to the one-argument default rule, so two parts fail. */
  lemma SenderDefaultTwoParts(p: CommandParser<Input, Arg>, toFloat: string -> Option<real>, toInt: string -> Option<int>, line: string)
    requires IsSenderParser(p, toFloat, toInt)
    requires |SplitOnce(line)| == 2 && SplitOnce(line)[0] !in SenderTable(toFloat, toInt)
    ensures p.Parse(line) == Err(ArityMismatch(1, 2))
  {
  }

  /** Both aliases of NEXT, "n" and "next", select the next song. */
  lemma SenderNext(p: CommandParser<Input, Arg>, toFloat: string -> Option<real>, toInt: string -> Option<int>)
    requires IsSenderParser(p, toFloat, toInt)
    ensures p.Parse("n") == Ok((Next, []))
    ensures p.Parse("next") == Ok((Next, []))
  {
    SenderTableEntries(toFloat, toInt);
    p.ParseOneWord("", "n", "");
    Unpadded("n");
    p.ParseOneWord("", "next", "");
    Unpadded("next");
  }

  /** "n 5": a zero-argument alias with an argument fails the arity check. */
  lemma SenderNextWithArgument(p: CommandParser<Input, Arg>, toFloat: string -> Option<real>, toInt: string -> Option<int>)
    requires IsSenderParser(p, toFloat, toInt)
    ensures p.Parse("n 5") == Err(ArityMismatch(0, 1))
  {
    SenderTableEntries(toFloat, toInt);
    p.ParseTwoParts("", "n", " ", "5");
    Spaced('n', '5');
  }

  /** "start" alone: the start-time alias needs its one argument. */
  lemma SenderStartWithoutArgument(p: CommandParser<Input, Arg>, toFloat: string -> Option<real>, toInt: string -> Option<int>)
    requires IsSenderParser(p, toFloat, toInt)
    ensures p.Parse("start") == Err(ArityMismatch(1, 0))
  {
    SenderTableEntries(toFloat, toInt);
    p.ParseOneWord("", "start", "");
    Unpadded("start");
  }

  /** "i 3" selects a song by its integer argument, or fails the conversion. */
  lemma SenderSetSongExample(p: CommandParser<Input, Arg>, toFloat: string -> Option<real>, toInt: string -> Option<int>)
    requires IsSenderParser(p, toFloat, toInt)
    ensures p.Parse("i 3") == if toInt("3").Some? then Ok((SetSong, [IntArg(toInt("3").value)])) else Err(ConversionFailed(0))
  {
    var sp := StrParser(SetSong, [IntType(toInt)]);
    assert p.Parse("i 3") == sp.Parse(["3"]) by {
      SenderTableEntries(toFloat, toInt);
      p.ParseTwoParts("", "i", " ", "3");
      Spaced('i', '3');
    }
    sp.ParseSingle("3");
    assert IntType(toInt)("3") == if toInt("3").Some? then Some(IntArg(toInt("3").value)) else None;
  }

  /** "7.25": a bare number is a duration. */
  lemma SenderDurationExample(p: CommandParser<Input, Arg>, toFloat: string -> Option<real>, toInt: string -> Option<int>)
    requires IsSenderParser(p, toFloat, toInt)
    ensures p.Parse("7.25") == if toFloat("7.25").Some? then Ok((Duration, [FloatArg(toFloat("7.25").value)])) else Err(ConversionFailed(0))
  {
    assert p.Parse("7.25") == SenderDefault(toFloat).Parse(["7.25"]) by {
      SenderTableEntries(toFloat, toInt);
      p.ParseOneWord("", "7.25", "");
      Unpadded("7.25");
    }
    SenderDefault(toFloat).ParseSingle("7.25");
    assert FloatType(toFloat)("7.25") == if toFloat("7.25").Some? then Some(FloatArg(toFloat("7.25").value)) else None;
  }

  /** "1 2": two words that are no alias give the default rule one argument too many. */
  lemma SenderTwoNumbers(p: CommandParser<Input, Arg>, toFloat: string -> Option<real>, toInt: string -> Option<int>)
    requires IsSenderParser(p, toFloat, toInt)
    ensures p.Parse("1 2") == Err(ArityMismatch(1, 2))
  {
    SenderTableEntries(toFloat, toInt);
    p.ParseTwoParts("", "1", " ", "2");
    Spaced('1', '2');
  }

  /** `get_user_input` parses the lower-cased line. */
  function ReadCommand(p: CommandParser<Input, Arg>, line: string): Result<(Input, seq<Arg>), ParseError>
    reads p
  {
    p.Parse(Lower(line))
  }

  /** Only a blank line has no first word (the `IndexError` of `parse`), whatever its case. */
  lemma ReadCommandBlank(p: CommandParser<Input, Arg>, line: string)
    ensures ReadCommand(p, line) == Err(NoFirstToken) <==> Blank(line)
  {
    assert Blank(Lower(line)) <==> Blank(line);
  }

  /**
   * Lower-casing makes alias matching case-insensitive for the sender: a line whose first
   * word lower-cases to an alias gets that alias's rule, applied to the lower-cased remainder.
   */
  lemma ReadCommandIgnoresCase(p: CommandParser<Input, Arg>, toFloat: string -> Option<real>, toInt: string -> Option<int>, line: string)
    requires IsSenderParser(p, toFloat, toInt)
    requires !Blank(line) && Lower(SplitOnce(line)[0]) in SenderTable(toFloat, toInt)
    ensures ReadCommand(p, line) ==
      SenderTable(toFloat, toInt)[Lower(SplitOnce(line)[0])].Parse(
        if |SplitOnce(line)| == 2 then [Lower(SplitOnce(line)[1])] else [])
  {
    SplitOnceLower(line);
    var parts := SplitOnce(line);
    var lowered := SplitOnce(Lower(line));
    if |parts| == 2 {
      assert lowered[1..] == [Lower(parts[1])];
    } else {
      assert lowered[1..] == [];
    }
  }

  /** Shouting works: "NEXT" selects the next song. */
  lemma ReadCommandUpperCase(p: CommandParser<Input, Arg>, toFloat: string -> Option<real>, toInt: string -> Option<int>)
    requires IsSenderParser(p, toFloat, toInt)
    ensures ReadCommand(p, "NEXT") == Ok((Next, []))
  {
    LowerNext();
    SenderNext(p, toFloat, toInt);
  }

  lemma LowerNext()
    ensures Lower("NEXT") == "next"
  {
    var lowered := Lower("NEXT");
    assert lowered[0] == 'n' && lowered[1] == 'e' && lowered[2] == 'x' && lowered[3] == 't';
  }

  /** What one call of `get_user_input` ends with. */
  datatype UserInput =
    | Command(input: Input, args: seq<Arg>, at: nat)  // the parse of line `at`
    | Raised(error: ParseError, at: nat)              // a non-ValueError escaped on line `at`
    | NoMoreLines                                     // every line was rejected; the prompt would wait for more

  /** A line the prompt answers with the help text and asks again for: a `ValueError`. */
  predicate AskedAgain(p: CommandParser<Input, Arg>, line: string)
    reads p
  {
    ReadCommand(p, line).Err? && ReadCommand(p, line).error.IsValueError()
  }

  /**
   * `get_user_input`: reads lines until one parses; a `ValueError` prints the help and
   * asks again, any other error propagates to the caller.
   */
  method GetUserInput(p: CommandParser<Input, Arg>, lines: seq<string>) returns (r: UserInput)
    ensures r.Command? ==> r.at < |lines| && ReadCommand(p, lines[r.at]) == Ok((r.input, r.args))
    ensures r.Raised? ==> r.at < |lines| && ReadCommand(p, lines[r.at]) == Err(r.error) && !r.error.IsValueError()
    ensures var tried := if r.NoMoreLines? then |lines| else r.at;
      forall j | 0 <= j < tried :: AskedAgain(p, lines[j])
  {
    var k := 0;
    while k < |lines|
      invariant k <= |lines|
      invariant forall j | 0 <= j < k :: AskedAgain(p, lines[j])
    {
      var result := ReadCommand(p, lines[k]);
      if result.Ok? {
        return Command(result.value.0, result.value.1, k);
      } else if !result.error.IsValueError() {
        return Raised(result.error, k);
      }
      k := k + 1;
    }
    return NoMoreLines;
  }
}
