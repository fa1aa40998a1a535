/**
 * `LambdaUtil`: which Lambda function aliases are monitored, and the CloudWatch dimensions
 * read off an alias ARN. `String.matches` is a parameter (`matches(s, regex)` holds when the
 * regular expression matches the whole of `s`). The ARNs are split on "function:", which
 * holds no regular-expression metacharacter, so `split` is the plain one of `JavaString`.
 */
module LambdaUtil {
  import opened Wrappers
  import opened JavaString
  import opened Traversal

  const TYPE_NAME: string := "aws_lambda"

  const FUNCTION_SEPARATOR: string := "function:"

  /** `isFunctionElligible(arn, arnRegex)`: a non-empty regex must match the whole ARN. */
  predicate IsFunctionEligible(arn: string, arnRegex: string, matches: (string, string) -> bool) {
    !(arnRegex != "" && !matches(arn, arnRegex))
  }

  /** Eligible exactly when the regex is empty or matches. */
  lemma FunctionEligibleIff(arn: string, arnRegex: string, matches: (string, string) -> bool)
    ensures IsFunctionEligible(arn, arnRegex, matches) <==> arnRegex == "" || matches(arn, arnRegex)
  {
  }

  /**
   * `getResourceFromArn(arn)` as written: the second piece of the ARN split on every
   * "function:" (an array index that throws when there is none).
   */
  function GetResourceFromArnAsWritten(arn: string): Result<string> {
    var pieces := Split(arn, FUNCTION_SEPARATOR);
    if |pieces| < 2 then Err(IndexOutOfBounds) else Ok(pieces[1])
  }

  /**
   * What `getResourceFromArn` is evidently meant to return: all the text after the first
   * "function:", the function name with its qualifier. It fails where the code does on an
   * ARN of one "function:": when there is none, or nothing follows it.
   */
  function GetResourceFromArn(arn: string): Result<string> {
    var k := IndexOf(arn, FUNCTION_SEPARATOR, 0);
    if k < 0 || k + |FUNCTION_SEPARATOR| == |arn| then Err(IndexOutOfBounds)
    else Ok(arn[k + |FUNCTION_SEPARATOR|..])
  }

  /**
   * `getFunctionNameFromArn(arn)` as written: the first piece, split on ':', of the first piece
   * of the ARN split on "function:". It is not called anywhere in the code.
   */
  function GetFunctionNameFromArnAsWritten(arn: string): Result<string> {
    var pieces := Split(arn, FUNCTION_SEPARATOR);
    if |pieces| < 1 then Err(IndexOutOfBounds)
    else
      var names := Split(pieces[0], ":");
      if |names| < 1 then Err(IndexOutOfBounds) else Ok(names[0])
  }

  /**
   * What `getFunctionNameFromArn` is evidently meant to return: the function name, the text
   * after "function:" up to the next ':' (the alias qualifier) or the end.
   */
  function GetFunctionNameFromArn(arn: string): Result<string> {
    var resource :- GetResourceFromArn(arn);
    var names := Split(resource, ":");
    if |names| < 1 then Err(IndexOutOfBounds) else Ok(names[0])
  }

  // ---------------------------------------------------------------- splitting ARNs

  /** The first occurrence of `sep` in `s` is at index `k`. */
  predicate FirstAt(s: string, sep: string, k: int) {
    OccursAt(s, sep, k) && forall i :: 0 <= i < k ==> !OccursAt(s, sep, i)
  }

  /** The first "function:" of a text is the one right after a prefix without an 'f'. */
  lemma SeparatorFirstAfter(prefix: string, rest: string)
    requires 'f' !in prefix
    ensures FirstAt(prefix + FUNCTION_SEPARATOR + rest, FUNCTION_SEPARATOR, |prefix|)
  {
    var s := prefix + FUNCTION_SEPARATOR + rest;
    assert s[|prefix|..|prefix| + |FUNCTION_SEPARATOR|] == FUNCTION_SEPARATOR;
    forall i | 0 <= i < |prefix| ensures !OccursAt(s, FUNCTION_SEPARATOR, i) {
      assert s[i] == prefix[i];
    }
  }

  /** Splitting keeps a first piece that is not empty. */
  lemma DropTrailingEmptyKeepsFirst(xs: seq<string>)
    requires |xs| >= 1 && xs[0] != ""
    ensures |DropTrailingEmpty(xs)| >= 1 && DropTrailingEmpty(xs)[0] == xs[0]
  {
  }

  /** The pieces of a text whose first separator follows `prefix`. */
  lemma PiecesAfterPrefix(prefix: string, sep: string, rest: string)
    requires |sep| > 0
    requires FirstAt(prefix + sep + rest, sep, |prefix|)
    ensures IndexOf(prefix + sep + rest, sep, 0) == |prefix|
    ensures Pieces(prefix + sep + rest, sep) == [prefix] + Pieces(rest, sep)
  {
    var s := prefix + sep + rest;
    IndexOfAt(s, sep, 0, |prefix|);
    assert s[..|prefix|] == prefix;
    assert s[|prefix| + |sep|..] == rest;
  }

  /** A text without the separator is one piece. */
  lemma PiecesWithoutSeparator(s: string, sep: string)
    requires |sep| > 0 && !Contains(s, sep)
    ensures IndexOf(s, sep, 0) == -1 && Pieces(s, sep) == [s]
  {
  }

  /** The first piece of a split on ':' of a text that starts "arn:" is "arn". */
  lemma FirstColonPiece(s: string)
    requires StartsWith(s, "arn:")
    ensures |Split(s, ":")| >= 1 && Split(s, ":")[0] == "arn"
  {
    assert s == "arn" + [':'] + s[4..];
    IndexOfCharIsFirst("arn", ':', s[4..]);
    assert s[..3] == "arn";
    DropTrailingEmptyKeepsFirst(Pieces(s, ":"));
  }

  /** A name followed by nothing or by a ':' qualifier is the first piece of a split on ':'. */
  lemma ColonPieceOfName(name: string, qualifier: string)
    requires name != "" && ':' !in name && (qualifier == "" || qualifier[0] == ':')
    ensures |Split(name + qualifier, ":")| >= 1 && Split(name + qualifier, ":")[0] == name
  {
    var s := name + qualifier;
    if qualifier == "" {
      assert s == name;
      IndexOfCharAbsent(name, ':');
    } else {
      assert s == name + [':'] + qualifier[1..];
      IndexOfCharIsFirst(name, ':', qualifier[1..]);
      assert s[..|name|] == name;
      DropTrailingEmptyKeepsFirst(Pieces(s, ":"));
    }
  }

  // ---------------------------------------------------------------- the ARN helpers

  /**
   * The resource of an ARN is the text after its first "function:": the function name with
   * its alias qualifier.
   */
  lemma ResourceOfArn(prefix: string, rest: string)
    requires FirstAt(prefix + FUNCTION_SEPARATOR + rest, FUNCTION_SEPARATOR, |prefix|)
    requires rest != ""
    ensures GetResourceFromArn(prefix + FUNCTION_SEPARATOR + rest) == Ok(rest)
  {
    var arn := prefix + FUNCTION_SEPARATOR + rest;
    IndexOfAt(arn, FUNCTION_SEPARATOR, 0, |prefix|);
    assert arn[|prefix| + |FUNCTION_SEPARATOR|..] == rest;
  }

  /** An ARN without "function:", or with nothing after its first one, has no resource. */
  lemma NoResource(prefix: string, arn: string)
    ensures !Contains(arn, FUNCTION_SEPARATOR) ==> GetResourceFromArn(arn) == Err(IndexOutOfBounds)
    ensures FirstAt(prefix + FUNCTION_SEPARATOR, FUNCTION_SEPARATOR, |prefix|) ==>
      GetResourceFromArn(prefix + FUNCTION_SEPARATOR) == Err(IndexOutOfBounds)
  {
    if !Contains(arn, FUNCTION_SEPARATOR) {
      PiecesWithoutSeparator(arn, FUNCTION_SEPARATOR);
    }
    if FirstAt(prefix + FUNCTION_SEPARATOR, FUNCTION_SEPARATOR, |prefix|) {
      IndexOfAt(prefix + FUNCTION_SEPARATOR, FUNCTION_SEPARATOR, 0, |prefix|);
    }
  }

  /**
   * The code as written gives the same resource, or fails the same way, on every ARN whose
   * text after the first "function:" holds no other.
   */
  lemma AsWrittenResourceAgrees(arn: string)
    requires IndexOf(arn, FUNCTION_SEPARATOR, 0) < 0
             || !Contains(arn[IndexOf(arn, FUNCTION_SEPARATOR, 0) + |FUNCTION_SEPARATOR|..], FUNCTION_SEPARATOR)
    ensures GetResourceFromArnAsWritten(arn) == GetResourceFromArn(arn)
  {
    var k := IndexOf(arn, FUNCTION_SEPARATOR, 0);
    if k >= 0 {
      var prefix, rest := arn[..k], arn[k + |FUNCTION_SEPARATOR|..];
      assert arn == prefix + FUNCTION_SEPARATOR + rest by {
        assert arn[k..k + |FUNCTION_SEPARATOR|] == FUNCTION_SEPARATOR;
      }
      PiecesAfterPrefix(prefix, FUNCTION_SEPARATOR, rest);
      PiecesWithoutSeparator(rest, FUNCTION_SEPARATOR);
    }
  }

  /**
   * As written, the resource stops at a second "function:": for an alias of a function whose
   * name ends in "function" it is only the start of the name.
   */
  lemma AsWrittenResourceStopsAtSecondSeparator(prefix: string, stem: string, alias: string)
    requires 'f' !in prefix && 'f' !in stem && alias != "" && !Contains(alias, FUNCTION_SEPARATOR)
    ensures GetResourceFromArnAsWritten(prefix + FUNCTION_SEPARATOR + (stem + FUNCTION_SEPARATOR + alias)) == Ok(stem)
    ensures GetResourceFromArn(prefix + FUNCTION_SEPARATOR + (stem + FUNCTION_SEPARATOR + alias))
         == Ok(stem + FUNCTION_SEPARATOR + alias)
  {
    var rest := stem + FUNCTION_SEPARATOR + alias;
    SeparatorFirstAfter(prefix, rest);
    ThreePieces(prefix, stem, alias);
    ResourceOfArn(prefix, rest);
  }

  /** The pieces of a text with two "function:" separators, the first two without an 'f'. */
  lemma ThreePieces(prefix: string, stem: string, alias: string)
    requires 'f' !in prefix && 'f' !in stem && alias != "" && !Contains(alias, FUNCTION_SEPARATOR)
    ensures Split(prefix + FUNCTION_SEPARATOR + (stem + FUNCTION_SEPARATOR + alias), FUNCTION_SEPARATOR) == [prefix, stem, alias]
  {
    var rest := stem + FUNCTION_SEPARATOR + alias;
    SeparatorFirstAfter(prefix, rest);
    PiecesAfterPrefix(prefix, FUNCTION_SEPARATOR, rest);
    TwoPieces(stem, alias);
    var pieces := Pieces(prefix + FUNCTION_SEPARATOR + rest, FUNCTION_SEPARATOR);
    assert pieces == [prefix] + [stem, alias];
    assert DropTrailingEmpty(pieces) == pieces by { assert pieces[2] != ""; }
  }

  /** The pieces of a text with one "function:" separator, the first without an 'f'. */
  lemma TwoPieces(stem: string, alias: string)
    requires 'f' !in stem && !Contains(alias, FUNCTION_SEPARATOR)
    ensures Pieces(stem + FUNCTION_SEPARATOR + alias, FUNCTION_SEPARATOR) == [stem, alias]
  {
    SeparatorFirstAfter(stem, alias);
    PiecesAfterPrefix(stem, FUNCTION_SEPARATOR, alias);
    PiecesWithoutSeparator(alias, FUNCTION_SEPARATOR);
  }

  /**
   * As written, every ARN (they all start "arn:") gives "arn", whatever function it names:
   * the ':'-split is applied to the text before "function:" instead of the text after it.
   */
  lemma AsWrittenNameIsArn(arn: string)
    requires StartsWith(arn, "arn:")
    ensures GetFunctionNameFromArnAsWritten(arn) == Ok("arn")
  {
    var k := IndexOf(arn, FUNCTION_SEPARATOR, 0);
    if k >= 0 {
      assert arn[k] == FUNCTION_SEPARATOR[0] by { assert arn[k..k + 9] == FUNCTION_SEPARATOR; }
      assert k >= 4 by { assert arn[..4] == "arn:"; }
      var first := arn[..k];
      assert StartsWith(first, "arn:") by { assert first[..4] == arn[..4]; }
      DropTrailingEmptyKeepsFirst(Pieces(arn, FUNCTION_SEPARATOR));
      FirstColonPiece(first);
    } else {
      FirstColonPiece(arn);
    }
  }

  /**
   * The corrected version gives the function name, whether the ARN carries an alias
   * qualifier or not.
   */
  lemma NameOfArn(prefix: string, name: string, qualifier: string)
    requires FirstAt(prefix + FUNCTION_SEPARATOR + name + qualifier, FUNCTION_SEPARATOR, |prefix|)
    requires name != "" && ':' !in name && (qualifier == "" || qualifier[0] == ':')
    ensures GetFunctionNameFromArn(prefix + FUNCTION_SEPARATOR + name + qualifier) == Ok(name)
  {
    assert prefix + FUNCTION_SEPARATOR + name + qualifier == prefix + FUNCTION_SEPARATOR + (name + qualifier);
    ResourceOfArn(prefix, name + qualifier);
    ColonPieceOfName(name, qualifier);
  }

  // ---------------------------------------------------------------- looking up the functions

  /** The part of the SDK's function configuration the code reads, with the ARNs of its aliases. */
  datatype FunctionConfiguration = FunctionConfiguration(functionName: string, aliasArns: seq<string>)

  /** An alias of a function. */
  datatype Alias = Alias(functionName: string, aliasArn: string)

  /** `LambdaFunctionSpec`: what a monitored alias is known by. */
  datatype LambdaFunctionSpec = LambdaFunctionSpec(arn: string, name: string, resource: string)

  function FunctionAliases(config: FunctionConfiguration): seq<Alias> {
    seq(|config.aliasArns|, j requires 0 <= j < |config.aliasArns| => Alias(config.functionName, config.aliasArns[j]))
  }

  /** The aliases of all the functions, function by function. */
  function AliasesOf(functions: seq<FunctionConfiguration>): seq<Alias> {
    if |functions| == 0 then [] else AliasesOf(functions[..|functions| - 1]) + FunctionAliases(functions[|functions| - 1])
  }

  /**
   * The spec of an alias: its ARN, its function's name and the resource `getResourceFromArn`
   * reads off the ARN, as the code is written (the second piece of the split).
   */
  function SpecOf(alias: Alias): Result<LambdaFunctionSpec> {
    var resource :- GetResourceFromArnAsWritten(alias.aliasArn);
    Ok(LambdaFunctionSpec(alias.aliasArn, alias.functionName, resource))
  }

  /**
   * For an alias ARN holding no second "function:", the resource in the spec is the intended
   * one, the function name with its qualifier.
   */
  lemma SpecOfPlainArn(alias: Alias)
    requires IndexOf(alias.aliasArn, FUNCTION_SEPARATOR, 0) < 0
             || !Contains(alias.aliasArn[IndexOf(alias.aliasArn, FUNCTION_SEPARATOR, 0) + |FUNCTION_SEPARATOR|..], FUNCTION_SEPARATOR)
    ensures SpecOf(alias).Ok? <==> GetResourceFromArn(alias.aliasArn).Ok?
    ensures SpecOf(alias).Ok? ==> SpecOf(alias).value.resource == GetResourceFromArn(alias.aliasArn).value
  {
    AsWrittenResourceAgrees(alias.aliasArn);
  }

  /**
   * The spec of an alias of a function whose name ends in "function" carries only the start
   * of the name as its resource: the lookup stores what the code as written computes.
   */
  lemma SpecOfStopsAtSecondSeparator(functionName: string, prefix: string, stem: string, qualifier: string)
    requires 'f' !in prefix && 'f' !in stem && qualifier != "" && !Contains(qualifier, FUNCTION_SEPARATOR)
    ensures var arn := prefix + FUNCTION_SEPARATOR + (stem + FUNCTION_SEPARATOR + qualifier);
      SpecOf(Alias(functionName, arn)) == Ok(LambdaFunctionSpec(arn, functionName, stem))
  {
    AsWrittenResourceStopsAtSecondSeparator(prefix, stem, qualifier);
  }

  function EligibleAlias(arnRegex: string, matches: (string, string) -> bool): Alias -> bool {
    (alias: Alias) => IsFunctionEligible(alias.aliasArn, arnRegex, matches)
  }

  /**
   * The loop of `lookupFunctions` over the aliases in order: the regex setting is read for
   * each alias (its lookup is a parameter, an `Err` being a lookup that throws), and an
   * eligible alias adds its spec; the first exception ends the loop.
   */
  function Collect(aliases: seq<Alias>, functionRegex: Result<string>, matches: (string, string) -> bool): Result<seq<LambdaFunctionSpec>> {
    if |aliases| == 0 then Ok([])
    else
      var specs :- Collect(aliases[..|aliases| - 1], functionRegex, matches);
      var arnRegex :- functionRegex;
      var alias := aliases[|aliases| - 1];
      if IsFunctionEligible(alias.aliasArn, arnRegex, matches) then
        var spec :- SpecOf(alias);
        Ok(specs + [spec])
      else Ok(specs)
  }

  /** One more step of the loop. */
  lemma CollectStep(aliases: seq<Alias>, functionRegex: Result<string>, matches: (string, string) -> bool, n: nat)
    requires n < |aliases|
    ensures var before := Collect(aliases[..n], functionRegex, matches);
            Collect(aliases[..n + 1], functionRegex, matches)
              == if before.Err? then before
                 else if functionRegex.Err? then Err(functionRegex.error)
                 else if !IsFunctionEligible(aliases[n].aliasArn, functionRegex.value, matches) then before
                 else if SpecOf(aliases[n]).Err? then Err(SpecOf(aliases[n]).error)
                 else Ok(before.value + [SpecOf(aliases[n]).value])
  {
    assert aliases[..n + 1][..n] == aliases[..n];
  }

  /** Once a prefix has failed, so has the whole loop, with the same exception. */
  lemma {:induction false} CollectFirstError(aliases: seq<Alias>, functionRegex: Result<string>,
                                             matches: (string, string) -> bool, n: nat)
    requires n <= |aliases|
    requires Collect(aliases[..n], functionRegex, matches).Err?
    ensures Collect(aliases, functionRegex, matches) == Collect(aliases[..n], functionRegex, matches)
    decreases |aliases| - n
  {
    if n < |aliases| {
      CollectStep(aliases, functionRegex, matches, n);
      CollectFirstError(aliases, functionRegex, matches, n + 1);
    } else {
      assert aliases[..n] == aliases;
    }
  }

  /**
   * With the regex read, the loop is the specs of the eligible aliases, in order, failing
   * with the first eligible alias whose ARN splits into fewer than two pieces on "function:".
   */
  lemma {:induction false} CollectIsSpecsOfEligible(aliases: seq<Alias>, arnRegex: string, matches: (string, string) -> bool)
    ensures Collect(aliases, Ok(arnRegex), matches) == MapResult(Filter(aliases, EligibleAlias(arnRegex, matches)), SpecOf)
  {
    if |aliases| > 0 {
      var init := aliases[..|aliases| - 1];
      var alias := aliases[|aliases| - 1];
      var kept := Filter(init, EligibleAlias(arnRegex, matches));
      CollectIsSpecsOfEligible(init, arnRegex, matches);
      assert Filter(aliases, EligibleAlias(arnRegex, matches))
          == kept + (if IsFunctionEligible(alias.aliasArn, arnRegex, matches) then [alias] else []);
      if IsFunctionEligible(alias.aliasArn, arnRegex, matches) {
        assert (kept + [alias])[..|kept|] == kept;
        assert MapResult(kept + [alias], SpecOf)
            == (var before :- MapResult(kept, SpecOf); var spec :- SpecOf(alias); Ok(before + [spec]));
        assert Collect(aliases, Ok(arnRegex), matches)
            == (var specs :- Collect(init, Ok(arnRegex), matches); var spec :- SpecOf(alias); Ok(specs + [spec]));
      } else {
        assert kept + [] == kept;
        assert Collect(aliases, Ok(arnRegex), matches) == Collect(init, Ok(arnRegex), matches);
      }
    }
  }

  /** Once there is an alias, a regex setting that cannot be read fails the lookup. */
  lemma {:induction false} CollectNeedsRegex(aliases: seq<Alias>, functionRegex: Result<string>, matches: (string, string) -> bool)
    requires |aliases| > 0 && functionRegex.Err?
    ensures Collect(aliases, functionRegex, matches) == Err(functionRegex.error)
  {
    if |aliases| > 1 {
      CollectNeedsRegex(aliases[..|aliases| - 1], functionRegex, matches);
    }
  }

  /**
   * A successful lookup holds a spec exactly for each eligible alias, with the alias ARN,
   * the function's name and the resource read off the ARN as the code is written.
   */
  lemma CollectMembers(aliases: seq<Alias>, arnRegex: string, matches: (string, string) -> bool, spec: LambdaFunctionSpec)
    requires Collect(aliases, Ok(arnRegex), matches).Ok?
    ensures spec in Collect(aliases, Ok(arnRegex), matches).value <==>
      exists alias :: alias in aliases && IsFunctionEligible(alias.aliasArn, arnRegex, matches)
                      && GetResourceFromArnAsWritten(alias.aliasArn).Ok?
                      && spec == LambdaFunctionSpec(alias.aliasArn, alias.functionName, GetResourceFromArnAsWritten(alias.aliasArn).value)
  {
    var kept := Filter(aliases, EligibleAlias(arnRegex, matches));
    CollectIsSpecsOfEligible(aliases, arnRegex, matches);
    FilterMembers(aliases, EligibleAlias(arnRegex, matches));
    MapResultShape(kept, SpecOf);
    var specs := Collect(aliases, Ok(arnRegex), matches).value;
    if spec in specs {
      var k :| 0 <= k < |specs| && specs[k] == spec;
      assert kept[k] in kept;
    }
    if exists alias :: alias in aliases && IsFunctionEligible(alias.aliasArn, arnRegex, matches)
                       && GetResourceFromArnAsWritten(alias.aliasArn).Ok?
                       && spec == LambdaFunctionSpec(alias.aliasArn, alias.functionName, GetResourceFromArnAsWritten(alias.aliasArn).value) {
      var alias :| alias in aliases && IsFunctionEligible(alias.aliasArn, arnRegex, matches)
                   && GetResourceFromArnAsWritten(alias.aliasArn).Ok?
                   && spec == LambdaFunctionSpec(alias.aliasArn, alias.functionName, GetResourceFromArnAsWritten(alias.aliasArn).value);
      assert alias in kept;
      var k :| 0 <= k < |kept| && kept[k] == alias;
      assert specs[k] == spec;
    }
  }

  /**
   * `lookupFunctions(lambdaClient)` after the list calls: the specs of the eligible aliases of
   * every function in turn.
   */
  method LookupFunctions(functions: seq<FunctionConfiguration>, functionRegex: Result<string>,
                         matches: (string, string) -> bool) returns (r: Result<seq<LambdaFunctionSpec>>)
    ensures r == Collect(AliasesOf(functions), functionRegex, matches)
  {
    var specs := [];
    var i := 0;
    while i < |functions|
      invariant 0 <= i <= |functions|
      invariant Collect(AliasesOf(functions[..i]), functionRegex, matches) == Ok(specs)
    {
      assert functions[..i + 1][..i] == functions[..i];
      var next := CollectFunction(AliasesOf(functions[..i]), specs, functions[i], functionRegex, matches);
      if next.Err? {
        CollectRestFails(functions, i + 1, functionRegex, matches);
        return next;
      }
      specs := next.value;
      i := i + 1;
    }
    assert functions[..i] == functions;
    r := Ok(specs);
  }

  /** The aliases of the first functions come first. */
  lemma {:induction false} AliasesOfPrefix(functions: seq<FunctionConfiguration>, n: nat)
    requires n <= |functions|
    ensures |AliasesOf(functions[..n])| <= |AliasesOf(functions)|
    ensures AliasesOf(functions)[..|AliasesOf(functions[..n])|] == AliasesOf(functions[..n])
    decreases |functions| - n
  {
    if n < |functions| {
      AliasesOfPrefix(functions, n + 1);
      assert functions[..n + 1][..n] == functions[..n];
      var before := AliasesOf(functions[..n]);
      assert AliasesOf(functions[..n + 1]) == before + FunctionAliases(functions[n]);
      assert (before + FunctionAliases(functions[n]))[..|before|] == before;
    } else {
      assert functions[..n] == functions;
    }
  }

  /** A lookup that fails on the first functions fails on all of them. */
  lemma CollectRestFails(functions: seq<FunctionConfiguration>, n: nat, functionRegex: Result<string>,
                         matches: (string, string) -> bool)
    requires n <= |functions|
    requires Collect(AliasesOf(functions[..n]), functionRegex, matches).Err?
    ensures Collect(AliasesOf(functions), functionRegex, matches) == Collect(AliasesOf(functions[..n]), functionRegex, matches)
  {
    AliasesOfPrefix(functions, n);
    CollectFirstError(AliasesOf(functions), functionRegex, matches, |AliasesOf(functions[..n])|);
  }

  /** The inner loop of the lookup: the aliases of one function. */
  method CollectFunction(ghost seen: seq<Alias>, specs: seq<LambdaFunctionSpec>, config: FunctionConfiguration,
                         functionRegex: Result<string>, matches: (string, string) -> bool)
    returns (r: Result<seq<LambdaFunctionSpec>>)
    requires Collect(seen, functionRegex, matches) == Ok(specs)
    ensures r == Collect(seen + FunctionAliases(config), functionRegex, matches)
  {
    var aliases := FunctionAliases(config);
    ghost var all := seen + aliases;
    AppendedAliases(seen, aliases);
    var collected := specs;
    var j := 0;
    ghost var n := |seen|;
    while j < |aliases|
      invariant 0 <= j <= |aliases| && n == |seen| + j
      invariant Collect(all[..n], functionRegex, matches) == Ok(collected)
    {
      var next := CollectAlias(all, n, collected, aliases[j], functionRegex, matches);
      if next.Err? {
        return next;
      }
      collected := next.value;
      j, n := j + 1, n + 1;
    }
    r := Ok(collected);
  }

  /** Where the aliases of one function sit once they are appended to those already seen. */
  lemma AppendedAliases(seen: seq<Alias>, aliases: seq<Alias>)
    ensures var all := seen + aliases;
            all[..|seen|] == seen && all[..|seen| + |aliases|] == all
  {
    var all := seen + aliases;
    assert all[..|seen|] == seen;
    assert all[..|all|] == all;
  }

  /** One pass of the inner loop's body: the spec of one alias, when it is eligible. */
  method CollectAlias(ghost aliases: seq<Alias>, ghost n: nat, specs: seq<LambdaFunctionSpec>, alias: Alias,
                      functionRegex: Result<string>, matches: (string, string) -> bool)
    returns (r: Result<seq<LambdaFunctionSpec>>)
    requires n < |aliases| && aliases[n] == alias
    requires Collect(aliases[..n], functionRegex, matches) == Ok(specs)
    ensures r == Collect(aliases[..n + 1], functionRegex, matches)
    ensures r.Err? ==> r == Collect(aliases, functionRegex, matches)
  {
    CollectStep(aliases, functionRegex, matches, n);
    if Collect(aliases[..n + 1], functionRegex, matches).Err? {
      CollectFirstError(aliases, functionRegex, matches, n + 1);
    }
    if functionRegex.Err? {
      return Err(functionRegex.error);
    }
    if IsFunctionEligible(alias.aliasArn, functionRegex.value, matches) {
      var resource := GetResourceFromArnAsWritten(alias.aliasArn);
      if resource.Err? {
        return Err(resource.error);
      }
      return Ok(specs + [LambdaFunctionSpec(alias.aliasArn, alias.functionName, resource.value)]);
    }
    return Ok(specs);
  }
}
