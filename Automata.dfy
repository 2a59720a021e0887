/**
 * The finite-state acceptor that the regular-expression library compiles a
 * pattern into, as an arena of states addressed by index, together with the
 * paths and words it admits.
 */
module Automata {

  /** Java's `Integer.MAX_VALUE`. */
  const INT_MAX: int := 0x7fff_ffff

  /** A Java `char`: one UTF-16 code unit, surrogates included. */
  type CodeUnit = c: int | 0 <= c < 0x1_0000

  /** A transition on the inclusive character range [lo, hi] to state `dest`. */
  datatype Transition = Transition(lo: CodeUnit, hi: CodeUnit, dest: nat)

  datatype StateRec = StateRec(accept: bool, trans: seq<Transition>)

  /**
   * `stateCount` and `finite` are the library's own answers to
   * `getNumberOfStates()` and `isFinite()`; the model does not compute them.
   */
  datatype Automaton = Automaton(states: seq<StateRec>, initial: nat, stateCount: int, finite: bool)

  /** Every transition has a non-empty range and leads to a state of the arena. */
  predicate Shaped(a: Automaton)
  {
    a.initial < |a.states| <= INT_MAX &&
    forall s, j :: 0 <= s < |a.states| && 0 <= j < |a.states[s].trans| ==>
      a.states[s].trans[j].lo <= a.states[s].trans[j].hi && a.states[s].trans[j].dest < |a.states|
  }

  /** What the model relies on from the library: a finite automaton has no cycle reachable from its initial state. */
  ghost predicate WellFormed(a: Automaton)
  {
    Shaped(a) && (a.finite ==> Acyclic(a))
  }

  ghost predicate Edge(a: Automaton, s: nat, d: nat)
  {
    s < |a.states| && exists j :: 0 <= j < |a.states[s].trans| && a.states[s].trans[j].dest == d
  }

  function Last(p: seq<nat>): (s: nat)
    requires |p| > 0
  {
    p[|p| - 1]
  }

  /** A sequence of states that starts at the initial state and follows transitions; it has |p| - 1 edges. */
  ghost predicate IsPath(a: Automaton, p: seq<nat>)
  {
    |p| >= 1 && p[0] == a.initial &&
    (forall i :: 0 <= i < |p| ==> p[i] < |a.states|) &&
    (forall i :: 0 <= i < |p| - 1 ==> Edge(a, p[i], p[i + 1]))
  }

  ghost predicate Distinct(p: seq<nat>)
  {
    forall i, j :: 0 <= i < j < |p| ==> p[i] != p[j]
  }

  /** No path from the initial state visits a state twice. */
  ghost predicate Acyclic(a: Automaton)
  {
    forall p :: IsPath(a, p) ==> Distinct(p)
  }

  ghost predicate Reachable(a: Automaton, s: nat)
  {
    exists p :: IsPath(a, p) && Last(p) == s
  }

  /** Some path of exactly `len` edges leads from the initial state to `s`. */
  ghost predicate PathOfLength(a: Automaton, s: nat, len: int)
  {
    exists p :: IsPath(a, p) && Last(p) == s && |p| == len + 1
  }

  ghost predicate AcceptingPath(a: Automaton, p: seq<nat>)
  {
    IsPath(a, p) && a.states[Last(p)].accept
  }

  /** Some path of exactly `len` edges ends in an accepting state. */
  ghost predicate AcceptsLength(a: Automaton, len: int)
  {
    exists p :: AcceptingPath(a, p) && |p| == len + 1
  }

  /** Reading character `c` in state `s` can lead to state `d`. */
  ghost predicate Step(a: Automaton, s: nat, c: int, d: nat)
  {
    s < |a.states| &&
    exists j :: 0 <= j < |a.states[s].trans| &&
      a.states[s].trans[j].lo <= c <= a.states[s].trans[j].hi && a.states[s].trans[j].dest == d
  }

  /** The states `p` are a run of the automaton over the word `w`. */
  ghost predicate Spells(a: Automaton, w: seq<CodeUnit>, p: seq<nat>)
  {
    |p| == |w| + 1 && p[0] == a.initial &&
    (forall i :: 0 <= i < |p| ==> p[i] < |a.states|) &&
    (forall i :: 0 <= i < |w| ==> Step(a, p[i], w[i], p[i + 1]))
  }

  /** The automaton accepts the word `w`. */
  ghost predicate Accepts(a: Automaton, w: seq<CodeUnit>)
  {
    exists p :: Spells(a, w, p) && a.states[Last(p)].accept
  }

  lemma PathExtend(a: Automaton, p: seq<nat>, d: nat)
    requires Shaped(a) && IsPath(a, p) && Edge(a, Last(p), d)
    ensures IsPath(a, p + [d]) && Last(p + [d]) == d && |p + [d]| == |p| + 1
  {
    var j :| 0 <= j < |a.states[Last(p)].trans| && a.states[Last(p)].trans[j].dest == d;
    var q := p + [d];
    forall i | 0 <= i < |q| - 1
      ensures Edge(a, q[i], q[i + 1])
    {
      if i < |p| - 1 {
        assert q[i] == p[i] && q[i + 1] == p[i + 1];
      }
    }
  }

  lemma PathPrefix(a: Automaton, p: seq<nat>)
    requires IsPath(a, p) && |p| >= 2
    ensures IsPath(a, p[..|p| - 1]) && Edge(a, Last(p[..|p| - 1]), Last(p))
  {
    var q := p[..|p| - 1];
    assert Edge(a, p[|p| - 2], p[|p| - 1]);
    forall i | 0 <= i < |q| - 1
      ensures Edge(a, q[i], q[i + 1])
    {
      assert Edge(a, p[i], p[i + 1]);
    }
  }

  /** Pigeonhole: a repetition-free sequence of values below `n` has at most `n` elements. */
  lemma {:induction false} DistinctBound(p: seq<nat>, n: nat)
    requires Distinct(p)
    requires forall i :: 0 <= i < |p| ==> p[i] < n
    ensures |p| <= n
    decreases |p|
  {
    if |p| > 0 {
      var top := n - 1;
      var q := seq(|p| - 1, i requires 0 <= i < |p| - 1 => if p[i + 1] == top then p[0] else p[i + 1]);
      forall i | 0 <= i < |q|
        ensures q[i] < top
      {
        assert p[0] != p[i + 1];
      }
      forall i, j | 0 <= i < j < |q|
        ensures q[i] != q[j]
      {
        assert p[i + 1] != p[j + 1] && p[0] != p[i + 1] && p[0] != p[j + 1];
      }
      DistinctBound(q, top);
    }
  }

  /** In a finite automaton a path has at most as many states as the arena. */
  lemma PathBound(a: Automaton, p: seq<nat>)
    requires WellFormed(a) && a.finite && IsPath(a, p)
    ensures |p| <= |a.states|
  {
    DistinctBound(p, |a.states|);
  }

  /** In a finite automaton no edge leaving a path returns to one of its states. */
  lemma NoEdgeBack(a: Automaton, p: seq<nat>, d: nat)
    requires WellFormed(a) && a.finite && IsPath(a, p) && Edge(a, Last(p), d)
    ensures forall i :: 0 <= i < |p| ==> p[i] != d
  {
    PathExtend(a, p, d);
    var q := p + [d];
    assert Distinct(q);
    forall i | 0 <= i < |p|
      ensures p[i] != d
    {
      assert q[i] == p[i] && q[|p|] == d;
    }
  }

  /** The states of a run form a path from the initial state. */
  lemma SpellsIsPath(a: Automaton, w: seq<CodeUnit>, p: seq<nat>)
    requires Spells(a, w, p)
    ensures IsPath(a, p)
  {
    forall i | 0 <= i < |p| - 1
      ensures Edge(a, p[i], p[i + 1])
    {
      assert Step(a, p[i], w[i], p[i + 1]);
    }
  }

  /**
   * Every path spells some word, because character ranges are never empty;
   * so a path length is the length of an accepted word exactly when the path
   * ends in an accepting state.
   */
  lemma {:induction false} PathSpellsWord(a: Automaton, p: seq<nat>) returns (w: seq<CodeUnit>)
    requires Shaped(a) && IsPath(a, p)
    ensures Spells(a, w, p)
  {
    if |p| == 1 {
      w := [];
    } else {
      var q := p[..|p| - 1];
      PathPrefix(a, p);
      var v := PathSpellsWord(a, q);
      var s := Last(q);
      var j :| 0 <= j < |a.states[s].trans| && a.states[s].trans[j].dest == Last(p);
      var c := a.states[s].trans[j].lo;
      w := v + [c];
      assert Step(a, s, c, Last(p));
      forall i | 0 <= i < |w|
        ensures Step(a, p[i], w[i], p[i + 1])
      {
        if i < |v| {
          assert w[i] == v[i] && p[i] == q[i] && p[i + 1] == q[i + 1];
        }
      }
    }
  }

  /** Accepted words and accepting paths have the same lengths. */
  lemma AcceptedLengths(a: Automaton, len: nat)
    requires Shaped(a)
    ensures AcceptsLength(a, len) <==> exists w :: |w| == len && Accepts(a, w)
  {
    if AcceptsLength(a, len) {
      var p :| AcceptingPath(a, p) && |p| == len + 1;
      var w := PathSpellsWord(a, p);
      assert |w| == len && Accepts(a, w);
    }
    if w :| |w| == len && Accepts(a, w) {
      var p :| Spells(a, w, p) && a.states[Last(p)].accept;
      SpellsIsPath(a, w, p);
      assert AcceptingPath(a, p);
    }
  }
}
