/**
 * `RegexStringGenerator`: a pattern, a handler holding its automaton, and a
 * random source. Requests for a length window are validated (or, on the
 * tautological guard, turned into a rewritten pattern) and then served by
 * the random walk.
 */
module Generator {
  import opened Wrappers
  import opened Failures
  import opened Automata
  import opened Lengths
  import opened Analysis
  import opened RandomSource
  import opened Walk
  import opened Handler
  import opened Patterns

  class RegexStringGenerator {
    const automatonHandler: AutomatonHandler
    const random: Random
    /** The library's `String.matches` against the automaton's rendering, used by the walk. */
    const matches: Matcher
    /** The last pattern given to `setRegExp`; `None` while it is Java's null. */
    var regex: Option<string>

    ghost predicate Valid()
      reads this, automatonHandler
    {
      automatonHandler.Valid() && Oracle(random.draw)
    }

    /** The constructor from a handler and a random source; the pattern stays null. */
    constructor (automatonHandler: AutomatonHandler, random: Random, matches: Matcher)
      requires automatonHandler.Valid() && Oracle(random.draw)
      ensures Valid() && regex == None
      ensures this.automatonHandler == automatonHandler && this.random == random && this.matches == matches
    {
      this.automatonHandler := automatonHandler;
      this.random := random;
      this.matches := matches;
      regex := None;
    }

    /** The constructor from a random source alone, with a new handler. */
    constructor WithNewHandler(compile: string -> Option<Automaton>, random: Random, matches: Matcher)
      requires forall pattern :: compile(pattern).Some? ==> WellFormed(compile(pattern).value)
      requires Oracle(random.draw)
      ensures Valid() && regex == None && fresh(automatonHandler)
      ensures automatonHandler.compile == compile && automatonHandler.automaton == None
      ensures automatonHandler.globalMinLength == 1 && automatonHandler.globalMaxLength == INT_MAX
      ensures this.random == random && this.matches == matches
    {
      automatonHandler := new AutomatonHandler(compile);
      this.random := random;
      this.matches := matches;
      regex := None;
    }

    /** The pattern is stored before it is compiled, so a rejected pattern is still stored. */
    method SetRegExp(pattern: string) returns (o: Outcome<Failure>)
      requires Valid()
      modifies this`regex, automatonHandler`automaton
      ensures Valid() && regex == Some(pattern)
      ensures o.Fail? <==> automatonHandler.compile(pattern).None?
      ensures o.Fail? ==> o.error == MalformedPattern && automatonHandler.automaton == old(automatonHandler.automaton)
      ensures o.Pass? ==> automatonHandler.automaton == automatonHandler.compile(pattern)
    {
      regex := Some(pattern);
      o := automatonHandler.SetRegExp(pattern);
    }

    /** `generate`: the random walk over the current automaton; without one, the null dereference. */
    method Generate(minLength: int, maxLength: int) returns (r: Result<seq<CodeUnit>, Failure>)
      requires Valid()
      modifies random`calls
      ensures automatonHandler.automaton.None? ==> r == Err(NullAutomaton) && random.calls == old(random.calls)
      ensures automatonHandler.automaton.Some? ==>
                var w := RunWalk(automatonHandler.automaton.value, random.draw, matches, minLength, maxLength, old(random.calls));
                r == Ok(w.text) && random.calls == w.calls
    {
      if automatonHandler.automaton.None? {
        return Err(NullAutomaton);
      }
      var text := RandomWalk(automatonHandler.automaton.value, random, matches, minLength, maxLength);
      r := Ok(text);
    }

    /**
     * `assertLengthCompatible`: finiteness first, then the expected length.
     * When the guard holds (the expected maximum is 1) the pattern is
     * rewritten to repeat itself `{minLength,maxLength}` times and no bound
     * is checked; otherwise the window is validated and nothing changes.
     */
    method AssertLengthCompatible(minLength: int, maxLength: int) returns (o: Outcome<Failure>)
      requires Valid()
      modifies this`regex, automatonHandler`automaton
      ensures Valid()
      ensures old(automatonHandler.automaton).None? ==>
                o == Fail(NullAutomaton) && regex == old(regex) && automatonHandler.automaton == old(automatonHandler.automaton)
      ensures old(automatonHandler.automaton).Some? && !old(automatonHandler.automaton).value.finite ==>
                o == Fail(InfiniteAutomaton) && regex == old(regex) && automatonHandler.automaton == old(automatonHandler.automaton)
      ensures old(automatonHandler.automaton).Some? && old(automatonHandler.automaton).value.finite &&
              !HasAcceptingPath(old(automatonHandler.automaton).value) ==>
                o == Fail(IllegalArgument) && regex == old(regex) && automatonHandler.automaton == old(automatonHandler.automaton)
      ensures forall e :: old(automatonHandler.automaton).Some? && FeasibleRange(old(automatonHandler.automaton).value, e) &&
                          old(automatonHandler.automaton).value.finite && e.max == 1 ==>
                var pattern := Rewrite(old(regex), minLength, maxLength);
                regex == Some(pattern) &&
                (o.Fail? <==> automatonHandler.compile(pattern).None?) &&
                (o.Fail? ==> o.error == MalformedPattern && automatonHandler.automaton == old(automatonHandler.automaton)) &&
                (o.Pass? ==> automatonHandler.automaton == automatonHandler.compile(pattern))
      ensures forall e :: old(automatonHandler.automaton).Some? && FeasibleRange(old(automatonHandler.automaton).value, e) &&
                          old(automatonHandler.automaton).value.finite && e.max != 1 ==>
                regex == old(regex) && automatonHandler.automaton == old(automatonHandler.automaton) &&
                (o.Pass? <==> automatonHandler.globalMinLength <= minLength && maxLength <= automatonHandler.globalMaxLength &&
                              e.min <= minLength && maxLength <= e.max) &&
                (minLength < automatonHandler.globalMinLength || maxLength > automatonHandler.globalMaxLength ==>
                   o == Fail(LengthOutOfBounds(Violations(minLength, maxLength,
                                                          automatonHandler.globalMinLength, automatonHandler.globalMaxLength)))) &&
                (automatonHandler.globalMinLength <= minLength && maxLength <= automatonHandler.globalMaxLength && o.Fail? ==>
                   o == Fail(LengthOutOfBounds(Violations(minLength, maxLength, e.min, e.max))))
    {
      o := automatonHandler.EnsureAutomatonIsFinite();
      if o.Fail? {
        return;
      }
      var expected := automatonHandler.GetExpectedLength();
      if expected.Err? {
        return Fail(expected.error);
      }
      var e := expected.value;
      ghost var a := automatonHandler.automaton.value;
      forall e' | FeasibleRange(a, e')
        ensures e' == e
      {
        FeasibleRangeUnique(a, e', e);
      }
      if RewriteGuard(e) {
        o := SetRegExp(Rewrite(regex, minLength, maxLength));
      } else {
        o := automatonHandler.ValidateTextGenerationCapacity(minLength, maxLength, e);
      }
    }

    /**
     * `generateString(minLength, maxLength)` (`generateText` in the older
     * package): validate, then walk on the automaton the validation left.
     * A failed validation draws nothing; only the rewrite branch changes the
     * pattern and the automaton.
     */
    method GenerateString(minLength: int, maxLength: int) returns (r: Result<seq<CodeUnit>, Failure>)
      requires Valid()
      modifies this`regex, automatonHandler`automaton, random`calls
      ensures Valid()
      ensures old(automatonHandler.automaton).None? ==>
                r == Err(NullAutomaton) && regex == old(regex) && automatonHandler.automaton == old(automatonHandler.automaton)
      ensures old(automatonHandler.automaton).Some? && !old(automatonHandler.automaton).value.finite ==>
                r == Err(InfiniteAutomaton) && regex == old(regex) && automatonHandler.automaton == old(automatonHandler.automaton)
      ensures old(automatonHandler.automaton).Some? && old(automatonHandler.automaton).value.finite &&
              !HasAcceptingPath(old(automatonHandler.automaton).value) ==>
                r == Err(IllegalArgument) && regex == old(regex) && automatonHandler.automaton == old(automatonHandler.automaton)
      ensures r.Ok? ==> old(automatonHandler.automaton).Some? && old(automatonHandler.automaton).value.finite &&
                        HasAcceptingPath(old(automatonHandler.automaton).value)
      ensures r.Err? ==> random.calls == old(random.calls)
      ensures r.Ok? ==> automatonHandler.automaton.Some? &&
                        var w := RunWalk(automatonHandler.automaton.value, random.draw, matches, minLength, maxLength, old(random.calls));
                        r.value == w.text && random.calls == w.calls
      ensures forall e :: old(automatonHandler.automaton).Some? && FeasibleRange(old(automatonHandler.automaton).value, e) &&
                          old(automatonHandler.automaton).value.finite && e.max != 1 ==>
                regex == old(regex) && automatonHandler.automaton == old(automatonHandler.automaton) &&
                (r.Ok? <==> automatonHandler.globalMinLength <= minLength && maxLength <= automatonHandler.globalMaxLength &&
                            e.min <= minLength && maxLength <= e.max) &&
                (minLength < automatonHandler.globalMinLength || maxLength > automatonHandler.globalMaxLength ==>
                   r == Err(LengthOutOfBounds(Violations(minLength, maxLength,
                                                         automatonHandler.globalMinLength, automatonHandler.globalMaxLength)))) &&
                (automatonHandler.globalMinLength <= minLength && maxLength <= automatonHandler.globalMaxLength && r.Err? ==>
                   r == Err(LengthOutOfBounds(Violations(minLength, maxLength, e.min, e.max))))
      ensures forall e :: old(automatonHandler.automaton).Some? && FeasibleRange(old(automatonHandler.automaton).value, e) &&
                          old(automatonHandler.automaton).value.finite && e.max == 1 ==>
                var pattern := Rewrite(old(regex), minLength, maxLength);
                regex == Some(pattern) &&
                (r.Ok? <==> automatonHandler.compile(pattern).Some?) &&
                (r.Ok? ==> automatonHandler.automaton == automatonHandler.compile(pattern)) &&
                (r.Err? ==> r.error == MalformedPattern && automatonHandler.automaton == old(automatonHandler.automaton))
    {
      var o := AssertLengthCompatible(minLength, maxLength);
      if o.Fail? {
        return Err(o.error);
      }
      r := Generate(minLength, maxLength);
    }

    /** `generateString()`: walk with the global bounds, with neither the finiteness check nor validation. */
    method GenerateStringGlobal() returns (r: Result<seq<CodeUnit>, Failure>)
      requires Valid()
      modifies random`calls
      ensures automatonHandler.automaton.None? ==> r == Err(NullAutomaton) && random.calls == old(random.calls)
      ensures automatonHandler.automaton.Some? ==>
                var w := RunWalk(automatonHandler.automaton.value, random.draw, matches,
                                 automatonHandler.globalMinLength, automatonHandler.globalMaxLength, old(random.calls));
                r == Ok(w.text) && random.calls == w.calls
    {
      r := Generate(automatonHandler.globalMinLength, automatonHandler.globalMaxLength);
    }

    /**
     * `generateString(regex)`: set the pattern, then `generateString` with the global bounds.
     * The pattern and its automaton are set first; from there on the window
     * is served as `generateString` serves it.
     */
    method GenerateStringFor(pattern: string) returns (r: Result<seq<CodeUnit>, Failure>)
      requires Valid()
      modifies this`regex, automatonHandler`automaton, random`calls
      ensures Valid()
      ensures var c := automatonHandler.compile(pattern);
              c.None? ==> r == Err(MalformedPattern) && regex == Some(pattern) &&
                          automatonHandler.automaton == old(automatonHandler.automaton)
      ensures var c := automatonHandler.compile(pattern);
              c.Some? && !c.value.finite ==>
                r == Err(InfiniteAutomaton) && regex == Some(pattern) && automatonHandler.automaton == c
      ensures var c := automatonHandler.compile(pattern);
              c.Some? && c.value.finite && !HasAcceptingPath(c.value) ==>
                r == Err(IllegalArgument) && regex == Some(pattern) && automatonHandler.automaton == c
      ensures r.Err? ==> random.calls == old(random.calls)
      ensures r.Ok? ==> automatonHandler.automaton.Some? &&
                        var w := RunWalk(automatonHandler.automaton.value, random.draw, matches, automatonHandler.globalMinLength, automatonHandler.globalMaxLength, old(random.calls));
                        r.value == w.text && random.calls == w.calls
      ensures forall e :: automatonHandler.compile(pattern).Some? && automatonHandler.compile(pattern).value.finite &&
                          FeasibleRange(automatonHandler.compile(pattern).value, e) && e.max != 1 ==>
                regex == Some(pattern) && automatonHandler.automaton == automatonHandler.compile(pattern) &&
                (r.Ok? <==> e.min <= automatonHandler.globalMinLength && automatonHandler.globalMaxLength <= e.max) &&
                (r.Err? ==> r == Err(LengthOutOfBounds(Violations(automatonHandler.globalMinLength, automatonHandler.globalMaxLength,
                                                                  e.min, e.max))))
      ensures forall e :: automatonHandler.compile(pattern).Some? && automatonHandler.compile(pattern).value.finite &&
                          FeasibleRange(automatonHandler.compile(pattern).value, e) && e.max == 1 ==>
                var rewritten := Rewrite(Some(pattern), automatonHandler.globalMinLength, automatonHandler.globalMaxLength);
                regex == Some(rewritten) &&
                (r.Ok? <==> automatonHandler.compile(rewritten).Some?) &&
                (r.Ok? ==> automatonHandler.automaton == automatonHandler.compile(rewritten)) &&
                (r.Err? ==> r.error == MalformedPattern && automatonHandler.automaton == automatonHandler.compile(pattern))
      ensures forall e :: automatonHandler.compile(pattern).Some? && automatonHandler.compile(pattern).value.finite &&
                          FeasibleRange(automatonHandler.compile(pattern).value, e) && e.max != 1 &&
                          automatonHandler.globalMaxLength == INT_MAX ==>
                r.Err?
    {
      var o := SetRegExp(pattern);
      if o.Fail? {
        return Err(o.error);
      }
      ghost var c := automatonHandler.compile(pattern).value;
      forall e | c.finite && FeasibleRange(c, e)
        ensures e.max < INT_MAX
      {
        FeasibleBelowArenaSize(c, e);
      }
      r := GenerateString(automatonHandler.globalMinLength, automatonHandler.globalMaxLength);
    }

    /**
     * `generateString(regex, minLength, maxLength)`: set the pattern, then `generateString(minLength, maxLength)`.
     * The pattern and its automaton are set first; from there on the window
     * is served as `generateString` serves it.
     */
    method GenerateStringForWithin(pattern: string, minLength: int, maxLength: int) returns (r: Result<seq<CodeUnit>, Failure>)
      requires Valid()
      modifies this`regex, automatonHandler`automaton, random`calls
      ensures Valid()
      ensures var c := automatonHandler.compile(pattern);
              c.None? ==> r == Err(MalformedPattern) && regex == Some(pattern) &&
                          automatonHandler.automaton == old(automatonHandler.automaton)
      ensures var c := automatonHandler.compile(pattern);
              c.Some? && !c.value.finite ==>
                r == Err(InfiniteAutomaton) && regex == Some(pattern) && automatonHandler.automaton == c
      ensures var c := automatonHandler.compile(pattern);
              c.Some? && c.value.finite && !HasAcceptingPath(c.value) ==>
                r == Err(IllegalArgument) && regex == Some(pattern) && automatonHandler.automaton == c
      ensures r.Err? ==> random.calls == old(random.calls)
      ensures r.Ok? ==> automatonHandler.automaton.Some? &&
                        var w := RunWalk(automatonHandler.automaton.value, random.draw, matches, minLength, maxLength, old(random.calls));
                        r.value == w.text && random.calls == w.calls
      ensures forall e :: automatonHandler.compile(pattern).Some? && automatonHandler.compile(pattern).value.finite &&
                          FeasibleRange(automatonHandler.compile(pattern).value, e) && e.max != 1 ==>
                regex == Some(pattern) && automatonHandler.automaton == automatonHandler.compile(pattern) &&
                (r.Ok? <==> automatonHandler.globalMinLength <= minLength && maxLength <= automatonHandler.globalMaxLength &&
                            e.min <= minLength && maxLength <= e.max) &&
                (minLength < automatonHandler.globalMinLength || maxLength > automatonHandler.globalMaxLength ==>
                   r == Err(LengthOutOfBounds(Violations(minLength, maxLength,
                                                         automatonHandler.globalMinLength, automatonHandler.globalMaxLength)))) &&
                (automatonHandler.globalMinLength <= minLength && maxLength <= automatonHandler.globalMaxLength && r.Err? ==>
                   r == Err(LengthOutOfBounds(Violations(minLength, maxLength, e.min, e.max))))
      ensures forall e :: automatonHandler.compile(pattern).Some? && automatonHandler.compile(pattern).value.finite &&
                          FeasibleRange(automatonHandler.compile(pattern).value, e) && e.max == 1 ==>
                var rewritten := Rewrite(Some(pattern), minLength, maxLength);
                regex == Some(rewritten) &&
                (r.Ok? <==> automatonHandler.compile(rewritten).Some?) &&
                (r.Ok? ==> automatonHandler.automaton == automatonHandler.compile(rewritten)) &&
                (r.Err? ==> r.error == MalformedPattern && automatonHandler.automaton == automatonHandler.compile(pattern))
      ensures forall e :: automatonHandler.compile(pattern).Some? && automatonHandler.compile(pattern).value.finite &&
                          FeasibleRange(automatonHandler.compile(pattern).value, e) && e.max != 1 &&
                          maxLength == INT_MAX ==>
                r.Err?
    {
      var o := SetRegExp(pattern);
      if o.Fail? {
        return Err(o.error);
      }
      ghost var c := automatonHandler.compile(pattern).value;
      forall e | c.finite && FeasibleRange(c, e)
        ensures e.max < INT_MAX
      {
        FeasibleBelowArenaSize(c, e);
      }
      r := GenerateString(minLength, maxLength);
    }
  }
}
