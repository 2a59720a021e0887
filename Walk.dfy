/**
 * The constrained random walk of `RegexStringGenerator.generate`: starting at
 * the initial state, pick a random transition, append a random character of
 * its range, move to its destination, and stop as soon as the text is long
 * enough, ends in an accepting state and passes the match check; otherwise
 * stop at the length limit or at a state without transitions.
 */
module Walk {
  import opened Automata
  import opened RandomSource

  /**
   * The library's match check `text.matches(automaton.toString())`. Its
   * pattern is the textual rendering of the automaton, so the model keeps it
   * uninterpreted and never equates it with acceptance.
   */
  type Matcher = (seq<CodeUnit>, Automaton) -> bool

  /** Why the walk stopped: the early return, the loop condition, or the `break`. */
  datatype Ending = Accepted | LengthReached | DeadEnd

  /**
   * The text built, the state reached, the count of `nextInt` calls after
   * the walk, and why it stopped; `path` lists the states visited.
   */
  datatype WalkResult = WalkResult(text: seq<CodeUnit>, path: seq<nat>, final: nat, calls: nat, ending: Ending)

  /** The test that triggers the early return after a character has been appended. */
  predicate Stops(a: Automaton, matches: Matcher, minLength: int, text: seq<CodeUnit>, s: nat)
    requires s < |a.states|
  {
    |text| >= minLength && a.states[s].accept && matches(text, a)
  }

  /**
   * The walk from `state` with `text` already built along the states
   * `path` and `calls` answers of the oracle consumed. Every step consumes
   * two answers: the transition index, then the offset of the character
   * within the transition's range.
   */
  function WalkFrom(a: Automaton, draw: (nat, nat) -> nat, matches: Matcher, minLength: int, maxLength: int,
                    state: nat, text: seq<CodeUnit>, path: seq<nat>, calls: nat): (r: WalkResult)
    requires Shaped(a) && Oracle(draw) && state < |a.states|
    decreases maxLength - |text|
  {
    if |text| >= maxLength then WalkResult(text, path, state, calls, LengthReached)
    else
      var ts := a.states[state].trans;
      if |ts| == 0 then WalkResult(text, path, state, calls, DeadEnd)
      else
        var t := ts[draw(calls, |ts|)];
        var text' := text + [t.lo + draw(calls + 1, t.hi - t.lo + 1)];
        if Stops(a, matches, minLength, text', t.dest) then WalkResult(text', path + [t.dest], t.dest, calls + 2, Accepted)
        else WalkFrom(a, draw, matches, minLength, maxLength, t.dest, text', path + [t.dest], calls + 2)
  }

  /** `generate(minLength, maxLength)` on the automaton `a`, with the oracle's answers from position `calls` on. */
  function RunWalk(a: Automaton, draw: (nat, nat) -> nat, matches: Matcher, minLength: int, maxLength: int,
                   calls: nat): (r: WalkResult)
    requires Shaped(a) && Oracle(draw)
    ensures 0 <= maxLength ==> |r.text| <= maxLength
    ensures r.calls == calls + 2 * |r.text| && |r.path| == |r.text| + 1 && r.path[0] == a.initial
  {
    WalkFromLength(a, draw, matches, minLength, maxLength, a.initial, [], [a.initial], calls);
    WalkFrom(a, draw, matches, minLength, maxLength, a.initial, [], [a.initial], calls)
  }

  /** One step of the walk: from `s` the oracle's answers at `k` and `k + 1` choose the transition to `d` and the character `c`. */
  ghost predicate DrawnStep(a: Automaton, draw: (nat, nat) -> nat, k: nat, s: nat, c: int, d: nat)
  {
    s < |a.states| &&
    var ts := a.states[s].trans;
    0 < |ts| && draw(k, |ts|) < |ts| &&
    var t := ts[draw(k, |ts|)];
    t.lo <= t.hi && t.dest == d && c == t.lo + draw(k + 1, t.hi - t.lo + 1)
  }

  /** The states `p` and the text `w` are what the oracle's answers from position `calls0` on choose. */
  ghost predicate Drawn(a: Automaton, draw: (nat, nat) -> nat, calls0: nat, w: seq<CodeUnit>, p: seq<nat>)
  {
    |p| == |w| + 1 && p[0] == a.initial &&
    (forall i :: 0 <= i < |p| ==> p[i] < |a.states|) &&
    (forall i :: 0 <= i < |w| ==> DrawnStep(a, draw, calls0 + 2 * i, p[i], w[i], p[i + 1]))
  }

  /** No prefix of `w` of length 1 <= i < k triggered the early return. */
  ghost predicate QuietBefore(a: Automaton, matches: Matcher, minLength: int, w: seq<CodeUnit>, p: seq<nat>, k: int)
    requires |p| == |w| + 1 && forall i :: 0 <= i < |p| ==> p[i] < |a.states|
  {
    forall i :: 1 <= i < k && i <= |w| ==> !Stops(a, matches, minLength, w[..i], p[i])
  }

  /** A drawn run is a run of the automaton: each character lies in the range of the transition taken. */
  lemma DrawnSpells(a: Automaton, draw: (nat, nat) -> nat, calls0: nat, w: seq<CodeUnit>, p: seq<nat>)
    requires Shaped(a) && Oracle(draw) && Drawn(a, draw, calls0, w, p)
    ensures Spells(a, w, p)
  {
    forall i | 0 <= i < |w|
      ensures Step(a, p[i], w[i], p[i + 1])
    {
      assert DrawnStep(a, draw, calls0 + 2 * i, p[i], w[i], p[i + 1]);
      var ts := a.states[p[i]].trans;
      var j := draw(calls0 + 2 * i, |ts|);
      assert ts[j].lo <= ts[j].hi;
      assert draw(calls0 + 2 * i + 1, ts[j].hi - ts[j].lo + 1) < ts[j].hi - ts[j].lo + 1;
    }
  }

  /** Extending a drawn run by the step the oracle chooses next. */
  lemma DrawnExtend(a: Automaton, draw: (nat, nat) -> nat, calls0: nat, w: seq<CodeUnit>, p: seq<nat>,
                    c: CodeUnit, d: nat)
    requires Shaped(a) && Drawn(a, draw, calls0, w, p) && d < |a.states|
    requires DrawnStep(a, draw, calls0 + 2 * |w|, Last(p), c, d)
    ensures Drawn(a, draw, calls0, w + [c], p + [d])
  {
    var w', p' := w + [c], p + [d];
    forall i | 0 <= i < |w'|
      ensures DrawnStep(a, draw, calls0 + 2 * i, p'[i], w'[i], p'[i + 1])
    {
      if i < |w| {
        assert p'[i] == p[i] && w'[i] == w[i] && p'[i + 1] == p[i + 1];
      }
    }
  }

  /** Appending a step keeps the earlier prefixes quiet, and the new one too when it does not trigger the early return. */
  lemma QuietExtend(a: Automaton, matches: Matcher, minLength: int, w: seq<CodeUnit>, p: seq<nat>, c: CodeUnit, d: nat)
    requires |p| == |w| + 1 && (forall i :: 0 <= i < |p| ==> p[i] < |a.states|) && d < |a.states|
    requires QuietBefore(a, matches, minLength, w, p, |w| + 1)
    ensures |p + [d]| == |w + [c]| + 1 && forall i :: 0 <= i < |p + [d]| ==> (p + [d])[i] < |a.states|
    ensures QuietBefore(a, matches, minLength, w + [c], p + [d], |w| + 1)
    ensures !Stops(a, matches, minLength, w + [c], d) ==> QuietBefore(a, matches, minLength, w + [c], p + [d], |w| + 2)
  {
    var w', p' := w + [c], p + [d];
    assert forall i :: 0 <= i < |p'| ==> p'[i] < |a.states| by {
      forall i | 0 <= i < |p'|
        ensures p'[i] < |a.states|
      {
        if i < |p| {
          assert p'[i] == p[i];
        }
      }
    }
    forall i | 1 <= i < |w| + 2 && i <= |w'|
      ensures i <= |w| || !Stops(a, matches, minLength, w', d) ==> !Stops(a, matches, minLength, w'[..i], p'[i])
    {
      if i == |w'| {
        assert w'[..i] == w';
      } else {
        assert w'[..i] == w[..i] && p'[i] == p[i];
      }
    }
  }
  /**
   * The length of a walk resumed in the middle: the text only grows, by one
   * character, one state and two oracle answers per step, and never beyond
   * `maxLength`.
   */
  lemma {:induction false} WalkFromLength(a: Automaton, draw: (nat, nat) -> nat, matches: Matcher,
                                          minLength: int, maxLength: int,
                                          state: nat, text: seq<CodeUnit>, path: seq<nat>, calls: nat)
    requires Shaped(a) && Oracle(draw) && state < |a.states|
    ensures var r := WalkFrom(a, draw, matches, minLength, maxLength, state, text, path, calls);
            |text| <= |r.text| && r.text[..|text|] == text &&
            |r.path| - |path| == |r.text| - |text| && r.path[..|path|] == path &&
            (|text| <= maxLength ==> |r.text| <= maxLength) &&
            r.calls == calls + 2 * (|r.text| - |text|)
    decreases maxLength - |text|
  {
    var ts := a.states[state].trans;
    if |text| < maxLength && |ts| != 0 {
      var t := ts[draw(calls, |ts|)];
      var text' := text + [t.lo + draw(calls + 1, t.hi - t.lo + 1)];
      if !Stops(a, matches, minLength, text', t.dest) {
        var path' := path + [t.dest];
        WalkFromLength(a, draw, matches, minLength, maxLength, t.dest, text', path', calls + 2);
        var r := WalkFrom(a, draw, matches, minLength, maxLength, t.dest, text', path', calls + 2);
        assert r.text[..|text|] == r.text[..|text'|][..|text|];
        assert r.path[..|path|] == r.path[..|path'|][..|path|];
      }
    }
  }

  /** How a walk resumed in the middle ended says which exit of the loop was taken. */
  lemma {:induction false} WalkFromEnding(a: Automaton, draw: (nat, nat) -> nat, matches: Matcher,
                                          minLength: int, maxLength: int,
                                          state: nat, text: seq<CodeUnit>, path: seq<nat>, calls: nat)
    requires Shaped(a) && Oracle(draw) && state < |a.states|
    ensures var r := WalkFrom(a, draw, matches, minLength, maxLength, state, text, path, calls);
            r.final < |a.states| &&
            (r.ending == Accepted ==> |text| < |r.text| && Stops(a, matches, minLength, r.text, r.final)) &&
            (r.ending == LengthReached ==> |r.text| >= maxLength && (|text| <= maxLength ==> |r.text| == maxLength)) &&
            (r.ending == DeadEnd ==> |r.text| < maxLength && |a.states[r.final].trans| == 0)
    decreases maxLength - |text|
  {
    var ts := a.states[state].trans;
    if |text| < maxLength && |ts| != 0 {
      var t := ts[draw(calls, |ts|)];
      var text' := text + [t.lo + draw(calls + 1, t.hi - t.lo + 1)];
      if !Stops(a, matches, minLength, text', t.dest) {
        WalkFromEnding(a, draw, matches, minLength, maxLength, t.dest, text', path + [t.dest], calls + 2);
      }
    }
  }

  /** The run behind a walk resumed in the middle: the whole text and the states visited are the oracle's choices. */
  lemma {:induction false} WalkFromRun(a: Automaton, draw: (nat, nat) -> nat, matches: Matcher,
                                       minLength: int, maxLength: int, calls0: nat,
                                       state: nat, text: seq<CodeUnit>, path: seq<nat>, calls: nat)
    requires Shaped(a) && Oracle(draw) && state < |a.states|
    requires Drawn(a, draw, calls0, text, path) && Last(path) == state && calls == calls0 + 2 * |text|
    ensures var r := WalkFrom(a, draw, matches, minLength, maxLength, state, text, path, calls);
            Drawn(a, draw, calls0, r.text, r.path) && Last(r.path) == r.final
    decreases maxLength - |text|
  {
    var ts := a.states[state].trans;
    if |text| < maxLength && |ts| != 0 {
      var t := ts[draw(calls, |ts|)];
      var c: CodeUnit := t.lo + draw(calls + 1, t.hi - t.lo + 1);
      var text' := text + [c];
      DrawnExtend(a, draw, calls0, text, path, c, t.dest);
      if !Stops(a, matches, minLength, text', t.dest) {
        WalkFromRun(a, draw, matches, minLength, maxLength, calls0, t.dest, text', path + [t.dest], calls + 2);
      }
    }
  }

  /** The early return of a walk resumed in the middle happens at the first prefix that triggers it, and only there. */
  lemma {:induction false} WalkFromQuiet(a: Automaton, draw: (nat, nat) -> nat, matches: Matcher,
                                         minLength: int, maxLength: int,
                                         state: nat, text: seq<CodeUnit>, path: seq<nat>, calls: nat)
    requires Shaped(a) && Oracle(draw) && state < |a.states|
    requires |path| == |text| + 1 && (forall i :: 0 <= i < |path| ==> path[i] < |a.states|) && Last(path) == state
    requires QuietBefore(a, matches, minLength, text, path, |text| + 1)
    ensures var r := WalkFrom(a, draw, matches, minLength, maxLength, state, text, path, calls);
            |r.path| == |r.text| + 1 && (forall i :: 0 <= i < |r.path| ==> r.path[i] < |a.states|) &&
            QuietBefore(a, matches, minLength, r.text, r.path, |r.text|) &&
            (r.ending != Accepted ==> QuietBefore(a, matches, minLength, r.text, r.path, |r.text| + 1))
    decreases maxLength - |text|
  {
    var ts := a.states[state].trans;
    if |text| >= maxLength || |ts| == 0 {
      assert QuietBefore(a, matches, minLength, text, path, |text|);
    } else {
      var t := ts[draw(calls, |ts|)];
      var c: CodeUnit := t.lo + draw(calls + 1, t.hi - t.lo + 1);
      var text', path' := text + [c], path + [t.dest];
      QuietExtend(a, matches, minLength, text, path, c, t.dest);
      if !Stops(a, matches, minLength, text', t.dest) {
        WalkFromQuiet(a, draw, matches, minLength, maxLength, t.dest, text', path', calls + 2);
      }
    }
  }

  /**
   * The walk from the initial state: at most `maxLength` characters, two
   * oracle answers per character, a run of the automaton chosen by the
   * oracle, and an early return exactly at the first prefix that is long
   * enough, ends in an accepting state and passes the match check.
   */
  lemma WalkFacts(a: Automaton, draw: (nat, nat) -> nat, matches: Matcher, minLength: int, maxLength: int, calls0: nat)
    requires Shaped(a) && Oracle(draw)
    ensures var r := RunWalk(a, draw, matches, minLength, maxLength, calls0);
            (0 <= maxLength ==> |r.text| <= maxLength) &&
            r.calls == calls0 + 2 * |r.text| &&
            Drawn(a, draw, calls0, r.text, r.path) && Spells(a, r.text, r.path) && Last(r.path) == r.final &&
            QuietBefore(a, matches, minLength, r.text, r.path, |r.text|) &&
            (r.ending == Accepted ==> 0 < |r.text| && |r.text| >= minLength && a.states[r.final].accept &&
                                      matches(r.text, a) && Accepts(a, r.text)) &&
            (r.ending != Accepted ==> QuietBefore(a, matches, minLength, r.text, r.path, |r.text| + 1)) &&
            (r.ending == LengthReached ==> |r.text| == if maxLength < 0 then 0 else maxLength) &&
            (r.ending == DeadEnd ==> |r.text| < maxLength && |a.states[r.final].trans| == 0)
  {
    var r := RunWalk(a, draw, matches, minLength, maxLength, calls0);
    assert Drawn(a, draw, calls0, [], [a.initial]);
    WalkFromLength(a, draw, matches, minLength, maxLength, a.initial, [], [a.initial], calls0);
    WalkFromEnding(a, draw, matches, minLength, maxLength, a.initial, [], [a.initial], calls0);
    WalkFromRun(a, draw, matches, minLength, maxLength, calls0, a.initial, [], [a.initial], calls0);
    WalkFromQuiet(a, draw, matches, minLength, maxLength, a.initial, [], [a.initial], calls0);
    DrawnSpells(a, draw, calls0, r.text, r.path);
    if r.ending == Accepted {
      assert Spells(a, r.text, r.path) && a.states[Last(r.path)].accept;
    }
  }

  /** With a non-positive length limit the walk returns the empty text at once, whatever the match check says. */
  lemma EmptyWhenNoRoom(a: Automaton, draw: (nat, nat) -> nat, matches: Matcher, other: Matcher,
                        minLength: int, maxLength: int, calls0: nat)
    requires Shaped(a) && Oracle(draw) && maxLength <= 0
    ensures RunWalk(a, draw, matches, minLength, maxLength, calls0) ==
            RunWalk(a, draw, other, minLength, maxLength, calls0) ==
            WalkResult([], [a.initial], a.initial, calls0, LengthReached)
  {
  }

  /**
   * One turn of the loop of `generate`: after drawing the transition index
   * and the character offset, either the early return yields the walk's
   * result, or the walk goes on from the destination.
   */
  lemma WalkStep(a: Automaton, draw: (nat, nat) -> nat, matches: Matcher, minLength: int, maxLength: int,
                 state: nat, text: seq<CodeUnit>, path: seq<nat>, calls: nat, goal: WalkResult,
                 index: nat, offset: nat)
    requires Shaped(a) && Oracle(draw) && state < |a.states|
    requires WalkFrom(a, draw, matches, minLength, maxLength, state, text, path, calls) == goal
    requires |text| < maxLength && |a.states[state].trans| != 0
    requires index == draw(calls, |a.states[state].trans|) && index < |a.states[state].trans|
    requires var t := a.states[state].trans[index]; offset == draw(calls + 1, t.hi - t.lo + 1)
    ensures var t := a.states[state].trans[index];
            var text' := text + [t.lo + offset];
            t.dest < |a.states| && t.lo + offset <= 0xFFFF &&
            (Stops(a, matches, minLength, text', t.dest) ==> goal.text == text' && goal.calls == calls + 2) &&
            (!Stops(a, matches, minLength, text', t.dest) ==>
               WalkFrom(a, draw, matches, minLength, maxLength, t.dest, text', path + [t.dest], calls + 2) == goal)
  {
  }

  /**
   * The loop of `generate`, over the automaton `a` and the generator's
   * random source: it computes exactly `RunWalk` on the oracle's answers
   * from the current call count on.
   */
  method RandomWalk(a: Automaton, random: Random, matches: Matcher, minLength: int, maxLength: int)
    returns (text: seq<CodeUnit>)
    requires Shaped(a) && Oracle(random.draw)
    modifies random`calls
    ensures var r := WalkFrom(a, random.draw, matches, minLength, maxLength, a.initial, [], [a.initial], old(random.calls));
            text == r.text && random.calls == r.calls
  {
    ghost var goal := WalkFrom(a, random.draw, matches, minLength, maxLength, a.initial, [], [a.initial], random.calls);
    var state: nat := a.initial;
    text := [];
    ghost var visited := [a.initial];
    while |text| < maxLength
      invariant state < |a.states|
      invariant WalkFrom(a, random.draw, matches, minLength, maxLength, state, text, visited, random.calls) == goal
      decreases maxLength - |text|
    {
      var transitions := a.states[state].trans;
      if |transitions| == 0 {
        break;
      }
      ghost var calls := random.calls;
      var index := random.NextInt(|transitions|);
      var selected := transitions[index];
      var offset := random.NextInt(selected.hi - selected.lo + 1);
      WalkStep(a, random.draw, matches, minLength, maxLength, state, text, visited, calls, goal, index, offset);
      var c: CodeUnit := selected.lo + offset;
      text := text + [c];
      state := selected.dest;
      visited := visited + [state];
      if Stops(a, matches, minLength, text, state) {
        return;
      }
    }
  }
}
