/**
 * The generic command parser of the sender (client/src/sender/lib/command_parser.py):
 * a rule table maps alias words to a command id and an ordered list of argument
 * converters; one default rule takes every line whose first word is not an alias.
 */
module CommandParsing {
  import opened Wrappers
  import opened PyText

  /** An argument type such as Python's `float` or `int`: a partial conversion from text. */
  type Converter<V> = string -> Option<V>

  /** Why a line was rejected. The first two are the `ValueError`s the parser raises. */
  datatype ParseError =
    | ArityMismatch(expected: nat, received: nat)  // "N arguments expected, M actually received"
    | ConversionFailed(index: nat)                  // the converter of argument `index` raised ValueError
    | NoFirstToken                                  // `parts[0]` on a blank line raises IndexError
  {
    predicate IsValueError() {
      !NoFirstToken?
    }
  }

  /**
   * Converts `args` left to right; the first converter that fails decides the error,
   * and no partial result survives it.
   */
  function ConvertAll<V>(types: seq<Converter<V>>, args: seq<string>): (r: Result<seq<V>, nat>)
    requires |types| == |args|
    ensures r.Ok? <==> forall i | 0 <= i < |types| :: types[i](args[i]).Some?
    ensures r.Ok? ==> |r.value| == |types| && forall i | 0 <= i < |types| :: types[i](args[i]) == Some(r.value[i])
    ensures r.Err? ==> r.error < |types| && types[r.error](args[r.error]).None?
                       && forall i | 0 <= i < r.error :: types[i](args[i]).Some?
  {
    if types == [] then Ok([])
    else match types[0](args[0])
      case None => Err(0)
      case Some(v) =>
        match ConvertAll(types[1..], args[1..])
        case Ok(vs) => Ok([v] + vs)
        case Err(i) => Err(i + 1)
  }

  /** `CommandParser.StrParser`: the command id a rule produces and its argument converters. */
  datatype StrParser<C, V> = StrParser(inputType: C, types: seq<Converter<V>>)
  {
    /** `StrParser.parse`: an arity check, then every argument converted in position. */
    function Parse(args: seq<string>): (r: Result<(C, seq<V>), ParseError>)
      ensures |args| != |types| <==> r == Err(ArityMismatch(|types|, |args|))
      ensures r.Ok? <==> |args| == |types| && forall i | 0 <= i < |types| :: types[i](args[i]).Some?
      ensures r.Ok? ==> r.value.0 == inputType && |r.value.1| == |types|
                        && forall i | 0 <= i < |types| :: types[i](args[i]) == Some(r.value.1[i])
      ensures r.Err? && |args| == |types| ==>
                r.error.ConversionFailed? && r.error.index < |types| && types[r.error.index](args[r.error.index]).None?
    {
      if |args| != |types| then Err(ArityMismatch(|types|, |args|))
      else match ConvertAll(types, args)
        case Ok(values) => Ok((inputType, values))
        case Err(i) => Err(ConversionFailed(i))
    }

    /** A one-argument rule yields the converted argument, or the failure of its converter. */
    lemma ParseSingle(arg: string)
      requires |types| == 1
      ensures Parse([arg]) == if types[0](arg).Some? then Ok((inputType, [types[0](arg).value])) else Err(ConversionFailed(0))
    {
      var r := Parse([arg]);
      if r.Ok? {
        assert types[0]([arg][0]) == Some(r.value.1[0]);
        assert r.value.1 == [r.value.1[0]];
      }
    }
  }

  /** One entry of the rule list: `(id, [aliases], type, ...)`. */
  datatype Rule<C, V> = Rule(id: C, aliases: seq<string>, types: seq<Converter<V>>)

  /** The table after registering `rule` on top of `m`: each of its aliases now names its parser. */
  function Register<C, V>(m: map<string, StrParser<C, V>>, rule: Rule<C, V>): map<string, StrParser<C, V>> {
    m + map a | a in rule.aliases :: StrParser(rule.id, rule.types)
  }

  /** The entries the first `j` aliases of `rule` contribute. */
  function AliasEntries<C, V>(rule: Rule<C, V>, j: nat): map<string, StrParser<C, V>>
    requires j <= |rule.aliases|
  {
    map a | a in rule.aliases[..j] :: StrParser(rule.id, rule.types)
  }

  lemma AliasEntriesStep<C, V>(m: map<string, StrParser<C, V>>, rule: Rule<C, V>, j: nat)
    requires j < |rule.aliases|
    ensures (m + AliasEntries(rule, j))[rule.aliases[j] := StrParser(rule.id, rule.types)] == m + AliasEntries(rule, j + 1)
  {
    assert rule.aliases[..j + 1] == rule.aliases[..j] + [rule.aliases[j]];
  }

  lemma AliasEntriesAll<C, V>(m: map<string, StrParser<C, V>>, rule: Rule<C, V>)
    ensures m + AliasEntries(rule, |rule.aliases|) == Register(m, rule)
  {
    assert rule.aliases[..|rule.aliases|] == rule.aliases;
  }

  /** The alias table `CommandParser.__init__` builds from `rules`, registered in order. */
  function Actions<C, V>(rules: seq<Rule<C, V>>): (m: map<string, StrParser<C, V>>)
    ensures rules != [] ==> forall a | a in rules[|rules| - 1].aliases :: a in m && m[a] == StrParser(rules[|rules| - 1].id, rules[|rules| - 1].types)
  {
    if rules == [] then map[]
    else Register(Actions(rules[..|rules| - 1]), rules[|rules| - 1])
  }

  lemma ActionsPrefixStep<C, V>(rules: seq<Rule<C, V>>, r: nat)
    requires r < |rules|
    ensures Actions(rules[..r + 1]) == Register(Actions(rules[..r]), rules[r])
  {
    assert rules[..r + 1][..r] == rules[..r];
  }

  /**
   * The table holds exactly the aliases of the rules, and an alias names the parser of
   * the last rule listing it: a later duplicate overwrites an earlier one.
   */
  lemma {:induction false} ActionsLookup<C, V>(rules: seq<Rule<C, V>>, a: string)
    ensures a in Actions(rules) <==> exists k | 0 <= k < |rules| :: a in rules[k].aliases
    ensures forall k | 0 <= k < |rules| && a in rules[k].aliases && (forall j | k < j < |rules| :: a !in rules[j].aliases) ::
              a in Actions(rules) && Actions(rules)[a] == StrParser(rules[k].id, rules[k].types)
    decreases |rules|
  {
    if rules != [] {
      var init := rules[..|rules| - 1];
      ActionsLookup(init, a);
      forall k | 0 <= k < |init| && a in init[k].aliases ensures a in rules[k].aliases {
        assert init[k] == rules[k];
      }
      forall k | 0 <= k < |rules| - 1 && a in rules[k].aliases ensures a in init[k].aliases {
        assert init[k] == rules[k];
      }
    }
  }

  /** `CommandParser`: the default rule's parser and the alias table, fixed at construction. */
  class CommandParser<C, V> {
    var defaultAction: StrParser<C, V>
    var actions: map<string, StrParser<C, V>>

    /** `CommandParser.__init__`: every alias of every rule is registered, in order, by a nested loop. */
    constructor (defaultId: C, defaultTypes: seq<Converter<V>>, rules: seq<Rule<C, V>>)
      ensures defaultAction == StrParser(defaultId, defaultTypes)
      ensures actions == Actions(rules)
    {
      defaultAction := StrParser(defaultId, defaultTypes);
      actions := map[];
      new;
      for r := 0 to |rules|
        invariant defaultAction == StrParser(defaultId, defaultTypes)
        invariant actions == Actions(rules[..r])
      {
        var rule := rules[r];
        ghost var before := actions;
        for j := 0 to |rule.aliases|
          invariant defaultAction == StrParser(defaultId, defaultTypes)
          invariant actions == before + AliasEntries(rule, j)
        {
          AliasEntriesStep(before, rule, j);
          actions := actions[rule.aliases[j] := StrParser(rule.id, rule.types)];
        }
        AliasEntriesAll(before, rule);
        ActionsPrefixStep(rules, r);
      }
      assert rules[..|rules|] == rules;
    }

    /**
     * `CommandParser.parse`: the line is split once; a first word found in the table gets
     * the unsplit remainder (if any) as its only argument candidate, any other line gives
     * all its parts to the default rule. A blank line has no first word.
     */
    function Parse(line: string): (r: Result<(C, seq<V>), ParseError>)
      reads this
      ensures r == Err(NoFirstToken) <==> Blank(line)
      ensures !Blank(line) && SplitOnce(line)[0] in actions ==>
                r == actions[SplitOnce(line)[0]].Parse(SplitOnce(line)[1..]) && |SplitOnce(line)[1..]| <= 1
      ensures !Blank(line) && SplitOnce(line)[0] !in actions ==> r == defaultAction.Parse(SplitOnce(line))
    {
      var parts := SplitOnce(line);
      if parts == [] then Err(NoFirstToken)
      else if parts[0] in actions then actions[parts[0]].Parse(parts[1..])
      else defaultAction.Parse(parts)
    }

    /** An alias gets at most the one remainder as its argument, so a rule with two or more types never succeeds through its alias. */
    lemma AliasWithManyTypesFails(line: string)
      requires !Blank(line) && SplitOnce(line)[0] in actions && |actions[SplitOnce(line)[0]].types| >= 2
      ensures Parse(line) == Err(ArityMismatch(|actions[SplitOnce(line)[0]].types|, |SplitOnce(line)| - 1))
    {
    }

    /** A line that is one word, possibly padded: an alias gets no arguments, anything else is the default rule's one argument. */
    lemma ParseOneWord(lead: string, word: string, trail: string)
      requires Blank(lead) && IsWord(word) && Blank(trail)
      ensures Parse(lead + word + trail) == if word in actions then actions[word].Parse([]) else defaultAction.Parse([word])
    {
      SplitOnceOfOne(lead, word, trail);
    }

    /** A word, whitespace and a remainder: an alias gets the whole remainder as its one argument, anything else gives the default rule two. */
    lemma ParseTwoParts(lead: string, word: string, gap: string, rest: string)
      requires Blank(lead) && IsWord(word) && Blank(gap) && gap != [] && rest != [] && StartsSolid(rest)
      ensures Parse(lead + word + gap + rest) == if word in actions then actions[word].Parse([rest]) else defaultAction.Parse([word, rest])
    {
      SplitOnceOfTwo(lead, word, gap, rest);
    }
  }
}
