/**
 * `io.github.yayakm.config.AutomatonHandler`: holds the compiled automaton
 * and the global length bounds, validates requested length windows, and
 * computes the feasible length range of a finite automaton.
 */
module Handler {
  import opened Wrappers
  import opened Failures
  import opened Automata
  import opened Lengths
  import opened Analysis
  import opened Properties

  /**
   * The violations `ensureLengthConstraints` reports for the window
   * [minLength, maxLength] against [allowedMin, allowedMax], in message order.
   */
  function Violations(minLength: int, maxLength: int, allowedMin: int, allowedMax: int): (v: seq<Violation>)
    ensures v == [] <==> allowedMin <= minLength && maxLength <= allowedMax
    ensures |v| <= 2
    ensures forall i :: 0 <= i < |v| ==>
              (v[i].MinTooSmall? ==> i == 0 && v[i] == MinTooSmall(minLength, allowedMin) && minLength < allowedMin) &&
              (v[i].MaxTooLarge? ==> i == |v| - 1 && v[i] == MaxTooLarge(maxLength, allowedMax) && maxLength > allowedMax)
    ensures minLength < allowedMin ==> v[0] == MinTooSmall(minLength, allowedMin)
    ensures maxLength > allowedMax ==> v[|v| - 1] == MaxTooLarge(maxLength, allowedMax)
  {
    (if minLength < allowedMin then [MinTooSmall(minLength, allowedMin)] else []) +
    (if maxLength > allowedMax then [MaxTooLarge(maxLength, allowedMax)] else [])
  }

  /**
   * `ensureLengthConstraints`: one error listing every violated bound, min
   * part first. Whether minLength <= maxLength is not checked.
   */
  method EnsureLengthConstraints(minLength: int, maxLength: int, allowedMin: int, allowedMax: int)
    returns (o: Outcome<Failure>)
    ensures o.Fail? <==> minLength < allowedMin || maxLength > allowedMax
    ensures o.Fail? ==> o.error == LengthOutOfBounds(Violations(minLength, maxLength, allowedMin, allowedMax))
  {
    var message: seq<Violation> := [];
    if minLength < allowedMin {
      message := message + [MinTooSmall(minLength, allowedMin)];
    }
    if maxLength > allowedMax {
      message := message + [MaxTooLarge(maxLength, allowedMax)];
    }
    if |message| > 0 {
      return Fail(LengthOutOfBounds(message));
    }
    o := Pass;
  }

  /**
   * The loop of `getExpectedLength` over the analysed states: the minimum
   * of the minima and the maximum of the maxima of the accepting ones,
   * starting from `Integer.MAX_VALUE` and 0. `found`, `sMin` and `sMax` say
   * which states supplied the answers.
   */
  method FoldAccepting(a: Automaton, lengths: LengthsMap)
    returns (minPossible: int, maxPossible: int, ghost found: bool, ghost sMin: nat, ghost sMax: nat)
    requires forall s :: s in lengths ==> s < |a.states| && 0 <= lengths[s].min <= lengths[s].max < INT_MAX
    ensures found <==> exists s :: s in lengths && a.states[s].accept
    ensures found ==> sMin in lengths && sMax in lengths && a.states[sMin].accept && a.states[sMax].accept &&
                      minPossible == lengths[sMin].min && maxPossible == lengths[sMax].max
    ensures !found ==> minPossible == INT_MAX && maxPossible == 0
    ensures forall s :: s in lengths && a.states[s].accept ==> minPossible <= lengths[s].min && lengths[s].max <= maxPossible
  {
    minPossible := INT_MAX;
    maxPossible := 0;
    found, sMin, sMax := false, 0, 0;
    var todo := lengths.Keys;
    while todo != {}
      invariant todo <= lengths.Keys
      invariant found ==> sMin in lengths && sMax in lengths && a.states[sMin].accept && a.states[sMax].accept &&
                          minPossible == lengths[sMin].min && maxPossible == lengths[sMax].max
      invariant !found ==> minPossible == INT_MAX && maxPossible == 0
      invariant forall s :: s in lengths && s !in todo && a.states[s].accept ==>
                  found && minPossible <= lengths[s].min && lengths[s].max <= maxPossible
      decreases |todo|
    {
      var s :| s in todo;
      if a.states[s].accept {
        var length := lengths[s];
        if length.min < minPossible {
          minPossible := length.min;
          sMin := s;
        }
        if length.max > maxPossible || !found {
          sMax := s;
        }
        if length.max > maxPossible {
          maxPossible := length.max;
        }
        found := true;
      }
      todo := todo - {s};
    }
  }

  class AutomatonHandler {
    /** `new RegExp(pattern).toAutomaton()`; `None` when the library rejects the pattern. */
    const compile: string -> Option<Automaton>
    var automaton: Option<Automaton>
    var globalMaxLength: int
    var globalMinLength: int

    /** What the model relies on from the library: every automaton it builds is well formed. */
    ghost predicate Valid()
      reads this
    {
      (forall pattern :: compile(pattern).Some? ==> WellFormed(compile(pattern).value)) &&
      (automaton.Some? ==> WellFormed(automaton.value))
    }

    /** The no-argument constructor: no automaton yet, global bounds 1 and `Integer.MAX_VALUE`. */
    constructor (compile: string -> Option<Automaton>)
      requires forall pattern :: compile(pattern).Some? ==> WellFormed(compile(pattern).value)
      ensures Valid() && this.compile == compile
      ensures automaton == None && globalMinLength == 1 && globalMaxLength == INT_MAX
    {
      this.compile := compile;
      automaton := None;
      globalMaxLength := INT_MAX;
      globalMinLength := 1;
    }

    method SetRegExp(regExp: string) returns (o: Outcome<Failure>)
      requires Valid()
      modifies this`automaton
      ensures Valid()
      ensures o.Fail? <==> compile(regExp).None?
      ensures o.Fail? ==> o.error == MalformedPattern && automaton == old(automaton)
      ensures o.Pass? ==> automaton == compile(regExp)
    {
      var compiled := compile(regExp);
      if compiled.None? {
        return Fail(MalformedPattern);
      }
      automaton := compiled;
      o := Pass;
    }

    method SetGlobalMaxLength(maxLength: int)
      modifies this`globalMaxLength
      ensures globalMaxLength == maxLength
    {
      globalMaxLength := maxLength;
    }

    method SetGlobalMinLength(minLength: int)
      modifies this`globalMinLength
      ensures globalMinLength == minLength
    {
      globalMinLength := minLength;
    }

    method EnsureAutomatonInitialized() returns (o: Outcome<Failure>)
      ensures o.Fail? <==> automaton.None?
      ensures o.Fail? ==> o.error == NotInitialized
    {
      if automaton.None? {
        return Fail(NotInitialized);
      }
      o := Pass;
    }

    /** Without an automaton the call dereferences null; an infinite automaton is rejected. */
    method EnsureAutomatonIsFinite() returns (o: Outcome<Failure>)
      ensures o.Pass? <==> automaton.Some? && automaton.value.finite
      ensures automaton.None? ==> o == Fail(NullAutomaton)
      ensures automaton.Some? && !automaton.value.finite ==> o == Fail(InfiniteAutomaton)
    {
      if automaton.None? {
        return Fail(NullAutomaton);
      }
      if !automaton.value.finite {
        return Fail(InfiniteAutomaton);
      }
      o := Pass;
    }

    /**
     * `validateTextGenerationCapacity`: the global bounds are checked first,
     * and only a window inside them is checked against the expected range.
     */
    method ValidateTextGenerationCapacity(minLength: int, maxLength: int, expected: Range) returns (o: Outcome<Failure>)
      ensures o.Pass? <==> globalMinLength <= minLength && maxLength <= globalMaxLength &&
                           expected.min <= minLength && maxLength <= expected.max
      ensures minLength < globalMinLength || maxLength > globalMaxLength ==>
                o == Fail(LengthOutOfBounds(Violations(minLength, maxLength, globalMinLength, globalMaxLength)))
      ensures globalMinLength <= minLength && maxLength <= globalMaxLength && o.Fail? ==>
                o == Fail(LengthOutOfBounds(Violations(minLength, maxLength, expected.min, expected.max)))
    {
      o := EnsureLengthConstraints(minLength, maxLength, globalMinLength, globalMaxLength);
      if o.Fail? {
        return;
      }
      o := EnsureLengthConstraints(minLength, maxLength, expected.min, expected.max);
    }

    /**
     * `getExpectedLength`: the least minimum and the greatest maximum over
     * the analysed accepting states. With no accepting state the sentinel
     * pair (`Integer.MAX_VALUE`, 0) is rejected by the `Length` constructor.
     */
    method GetExpectedLength() returns (r: Result<Range, Failure>)
      requires Valid()
      requires automaton.Some? ==> automaton.value.finite
      ensures automaton.None? ==> r == Err(NotInitialized)
      ensures automaton.Some? ==> (r.Ok? <==> HasAcceptingPath(automaton.value))
      ensures automaton.Some? && r.Err? ==> r.error == IllegalArgument
      ensures r.Ok? ==> automaton.Some? && FeasibleRange(automaton.value, r.value)
    {
      var initialized := EnsureAutomatonInitialized();
      if initialized.Fail? {
        return Err(initialized.error);
      }
      var a := automaton.value;
      var lengths := ExploreLengths(a);
      var minPossible, maxPossible, found, sMin, sMax := FoldAccepting(a, lengths);
      if found {
        FoldFeasible(a, lengths, sMin, sMax);
      } else {
        NoAcceptingPath(a, lengths);
      }
      r := CheckRange(minPossible, maxPossible);
    }

    /**
     * `getAutomatonProperties`: the state count and finiteness as the library
     * reports them; the length analysis runs only on a finite automaton.
     */
    method GetAutomatonProperties() returns (r: Result<AutomatonProperties, Failure>)
      requires Valid()
      ensures automaton.None? ==> r == Err(NotInitialized)
      ensures automaton.Some? && !automaton.value.finite ==> r == Ok(WithoutLength(automaton.value.stateCount, false))
      ensures automaton.Some? && automaton.value.finite ==>
                (r.Ok? <==> HasAcceptingPath(automaton.value)) &&
                (r.Err? ==> r.error == IllegalArgument) &&
                (r.Ok? ==> r.value.numberOfStates == automaton.value.stateCount && r.value.isFinite &&
                           FeasibleRange(automaton.value, Range(r.value.generatedTextExpectedMinSize,
                                                                r.value.generatedTextExpectedMaxSize)))
    {
      var initialized := EnsureAutomatonInitialized();
      if initialized.Fail? {
        return Err(initialized.error);
      }
      var numberOfStates := automaton.value.stateCount;
      var isFinite := automaton.value.finite;
      if isFinite {
        var length := GetExpectedLength();
        if length.Err? {
          return Err(length.error);
        }
        return Ok(WithLength(numberOfStates, true, length.value));
      }
      r := Ok(WithoutLength(numberOfStates, false));
    }
  }
}
