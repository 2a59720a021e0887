/**
 * The length-range analysis of `AutomatonHandler.exploreLengths`: a worklist
 * relaxation that records, for every state reached from the initial state,
 * the interval of path lengths leading to it.
 */
module Analysis {
  import opened Automata
  import opened Lengths

  /** The `HashMap<State, Length>` of the source, keyed by state index. */
  type LengthsMap = map<nat, Range>

  /** The range of `s` is exactly [shortest, longest] path length from the initial state to `s`. */
  ghost predicate ExactRange(a: Automaton, L: LengthsMap, s: nat)
    requires s in L
  {
    PathOfLength(a, s, L[s].min) && PathOfLength(a, s, L[s].max) &&
    forall p :: IsPath(a, p) && Last(p) == s ==> L[s].min <= |p| - 1 <= L[s].max
  }

  /** Transition `j` of `s` is relaxed: its destination's range covers `s`'s range shifted by one. */
  ghost predicate Covers(a: Automaton, L: LengthsMap, s: nat, j: nat)
  {
    s in L && s < |a.states| && j < |a.states[s].trans| &&
    var d := a.states[s].trans[j].dest;
    d in L && L[d].min <= L[s].min + 1 && L[d].max >= L[s].max + 1
  }

  ghost predicate Closed(a: Automaton, L: LengthsMap, s: nat)
  {
    s < |a.states| && forall j :: 0 <= j < |a.states[s].trans| ==> Covers(a, L, s, j)
  }

  /** No transition of a recorded state can widen any recorded range. */
  ghost predicate Fixpoint(a: Automaton, L: LengthsMap)
  {
    forall s :: s in L ==> Closed(a, L, s)
  }

  /** The feasible length range of accepted words: both ends are reached, nothing lies outside. */
  ghost predicate FeasibleRange(a: Automaton, r: Range)
  {
    AcceptsLength(a, r.min) && AcceptsLength(a, r.max) &&
    forall p :: AcceptingPath(a, p) ==> r.min <= |p| - 1 <= r.max
  }

  /** The analysis has one answer: calling it twice yields the same range. */
  lemma FeasibleRangeUnique(a: Automaton, r1: Range, r2: Range)
    requires FeasibleRange(a, r1) && FeasibleRange(a, r2)
    ensures r1 == r2
  {
    var p1 :| AcceptingPath(a, p1) && |p1| == r1.min + 1;
    var p2 :| AcceptingPath(a, p2) && |p2| == r2.min + 1;
    var q1 :| AcceptingPath(a, q1) && |q1| == r1.max + 1;
    var q2 :| AcceptingPath(a, q2) && |q2| == r2.max + 1;
  }

  /**
   * In a finite automaton the feasible maximum lies below the number of
   * states in the arena, so it is below `Integer.MAX_VALUE`: a window up to
   * the default global maximum never fits.
   */
  lemma FeasibleBelowArenaSize(a: Automaton, r: Range)
    requires WellFormed(a) && a.finite && FeasibleRange(a, r)
    ensures 0 <= r.min <= r.max < |a.states| <= INT_MAX
  {
    var p :| AcceptingPath(a, p) && |p| == r.max + 1;
    PathBound(a, p);
    var q :| AcceptingPath(a, q) && |q| == r.min + 1;
  }

  ghost predicate HasAcceptingPath(a: Automaton)
  {
    exists p :: AcceptingPath(a, p)
  }

  /** In terms of words: both ends of a feasible range are lengths of accepted words, and every accepted word lies within it. */
  lemma FeasibleWords(a: Automaton, r: Range)
    requires Shaped(a) && FeasibleRange(a, r)
    ensures exists w :: |w| == r.min && Accepts(a, w)
    ensures exists w :: |w| == r.max && Accepts(a, w)
    ensures forall w :: Accepts(a, w) ==> r.min <= |w| <= r.max
  {
    var p :| AcceptingPath(a, p) && |p| == r.min + 1;
    AcceptedLengths(a, r.min);
    AcceptedLengths(a, r.max);
    forall w | Accepts(a, w)
      ensures r.min <= |w| <= r.max
    {
      var q :| Spells(a, w, q) && a.states[Last(q)].accept;
      SpellsIsPath(a, w, q);
      assert AcceptingPath(a, q);
    }
  }

  /**
   * Folding the analysed ranges of the accepting states: the least minimum
   * and the greatest maximum form the feasible range.
   */
  lemma FoldFeasible(a: Automaton, L: LengthsMap, sMin: nat, sMax: nat)
    requires forall s :: s in L <==> Reachable(a, s)
    requires forall s :: s in L ==> s < |a.states| && ExactRange(a, L, s)
    requires sMin in L && sMax in L && a.states[sMin].accept && a.states[sMax].accept
    requires forall s :: s in L && a.states[s].accept ==> L[sMin].min <= L[s].min && L[s].max <= L[sMax].max
    ensures FeasibleRange(a, Range(L[sMin].min, L[sMax].max))
  {
    assert ExactRange(a, L, sMin) && ExactRange(a, L, sMax);
    var p1 :| IsPath(a, p1) && Last(p1) == sMin && |p1| == L[sMin].min + 1;
    var p2 :| IsPath(a, p2) && Last(p2) == sMax && |p2| == L[sMax].max + 1;
    assert AcceptingPath(a, p1) && AcceptingPath(a, p2);
    forall p | AcceptingPath(a, p)
      ensures L[sMin].min <= |p| - 1 <= L[sMax].max
    {
      var s := Last(p);
      assert Reachable(a, s);
      assert ExactRange(a, L, s);
    }
  }

  /** If no analysed state accepts, no path from the initial state accepts. */
  lemma NoAcceptingPath(a: Automaton, L: LengthsMap)
    requires forall s :: s in L <==> Reachable(a, s)
    requires forall s :: s in L ==> s < |a.states| && !a.states[s].accept
    ensures !HasAcceptingPath(a)
  {
    if p :| AcceptingPath(a, p) {
      assert Reachable(a, Last(p));
    }
  }

  // ---- termination measure ----

  /** What is left to widen at `s`: 2n before discovery, then min + (n - 1 - max). */
  function Slack(L: LengthsMap, s: nat, n: nat): (slack: nat)
  {
    if s !in L then 2 * n
    else if 0 <= L[s].min <= L[s].max < n then L[s].min + (n - 1 - L[s].max)
    else 0
  }

  function Potential(L: LengthsMap, n: nat, k: nat): (total: nat)
  {
    if k == 0 then 0 else Potential(L, n, k - 1) + Slack(L, k - 1, n)
  }

  lemma {:induction false} PotentialSame(L: LengthsMap, L': LengthsMap, n: nat, k: nat)
    requires forall t :: 0 <= t < k ==> Slack(L', t, n) == Slack(L, t, n)
    ensures Potential(L', n, k) == Potential(L, n, k)
  {
    if k > 0 {
      PotentialSame(L, L', n, k - 1);
    }
  }

  lemma {:induction false} PotentialDrops(L: LengthsMap, L': LengthsMap, n: nat, k: nat, s: nat)
    requires s < k
    requires forall t :: 0 <= t < k && t != s ==> Slack(L', t, n) == Slack(L, t, n)
    requires Slack(L', s, n) < Slack(L, s, n)
    ensures Potential(L', n, k) < Potential(L, n, k)
  {
    if s == k - 1 {
      PotentialSame(L, L', n, k - 1);
    } else {
      PotentialDrops(L, L', n, k - 1, s);
    }
  }

  /** Recording a range at `d` that is new or strictly wider lowers the potential. */
  lemma WideningDrops(L: LengthsMap, d: nat, r: Range, n: nat)
    requires d < n
    requires 0 <= r.min <= r.max < n
    requires d in L ==> 0 <= L[d].min <= L[d].max < n
    requires d in L ==> r.min <= L[d].min && r.max >= L[d].max && (r.min < L[d].min || r.max > L[d].max)
    ensures Potential(L[d := r], n, n) < Potential(L, n, n)
  {
    PotentialDrops(L, L[d := r], n, n, d);
  }

  // ---- frame lemmas for one relaxation step ----

  /** Giving `d` a wider (or first) range keeps every relaxed transition of another state relaxed. */
  lemma CoversAfterWiden(a: Automaton, L: LengthsMap, s: nat, j: nat, d: nat, r: Range)
    requires Covers(a, L, s, j) && s != d
    requires d in L ==> r.min <= L[d].min && r.max >= L[d].max
    ensures Covers(a, L[d := r], s, j)
  {
  }

  lemma ClosedAfterWiden(a: Automaton, L: LengthsMap, s: nat, d: nat, r: Range)
    requires Closed(a, L, s) && s != d
    requires d in L ==> r.min <= L[d].min && r.max >= L[d].max
    ensures Closed(a, L[d := r], s)
  {
    var L' := L[d := r];
    forall j | 0 <= j < |a.states[s].trans|
      ensures Covers(a, L', s, j)
    {
      CoversAfterWiden(a, L, s, j, d, r);
    }
  }

  /** The path invariants the worklist loop keeps: every recorded bound is the length of a real path. */
  ghost predicate Witnessed(a: Automaton, L: LengthsMap, minW: map<nat, seq<nat>>, maxW: map<nat, seq<nat>>)
  {
    minW.Keys == L.Keys && maxW.Keys == L.Keys &&
    forall s :: s in L ==>
      IsPath(a, minW[s]) && Last(minW[s]) == s && |minW[s]| == L[s].min + 1 &&
      IsPath(a, maxW[s]) && Last(maxW[s]) == s && |maxW[s]| == L[s].max + 1
  }

  ghost predicate Bounded(a: Automaton, L: LengthsMap)
  {
    forall s :: s in L ==> s < |a.states| && 0 <= L[s].min <= L[s].max < |a.states|
  }

  /** The invariant of the outer `while (!queue.isEmpty())` loop. */
  ghost predicate OuterInv(a: Automaton, L: LengthsMap, queue: seq<nat>, minW: map<nat, seq<nat>>, maxW: map<nat, seq<nat>>)
  {
    WellFormed(a) && a.finite &&
    a.initial in L && L[a.initial] == Range(0, 0) &&
    Bounded(a, L) &&
    Witnessed(a, L, minW, maxW) &&
    (forall i :: 0 <= i < |queue| ==> queue[i] in L) &&
    (forall s :: s in L && s !in queue ==> Closed(a, L, s))
  }

  /**
   * The invariant of the loop over the transitions of `current`, in two
   * parts; `L0` and `q0` are the map and the queue just after `current` was
   * polled.
   */
  ghost predicate InnerFrame(a: Automaton, L: LengthsMap, queue: seq<nat>, minW: map<nat, seq<nat>>, maxW: map<nat, seq<nat>>,
                             current: nat, L0: LengthsMap)
  {
    WellFormed(a) && a.finite && current < |a.states| &&
    a.initial in L && L[a.initial] == Range(0, 0) &&
    Bounded(a, L) &&
    Witnessed(a, L, minW, maxW) &&
    (forall i :: 0 <= i < |queue| ==> queue[i] in L) &&
    current in L && current in L0 && L[current] == L0[current]
  }

  ghost predicate InnerProgress(a: Automaton, L: LengthsMap, queue: seq<nat>, current: nat, j: nat, L0: LengthsMap, q0: seq<nat>)
    requires current < |a.states|
  {
    j <= |a.states[current].trans| &&
    (forall jj :: 0 <= jj < j ==> Covers(a, L, current, jj)) &&
    (forall s :: s in L && s !in queue && s != current ==> Closed(a, L, s)) &&
    ((L == L0 && queue == q0) || Potential(L, |a.states|, |a.states|) < Potential(L0, |a.states|, |a.states|))
  }

  ghost predicate InnerInv(a: Automaton, L: LengthsMap, queue: seq<nat>, minW: map<nat, seq<nat>>, maxW: map<nat, seq<nat>>,
                           current: nat, j: nat, L0: LengthsMap, q0: seq<nat>)
  {
    InnerFrame(a, L, queue, minW, maxW, current, L0) && InnerProgress(a, L, queue, current, j, L0, q0)
  }

  lemma StartInner(a: Automaton, L: LengthsMap, queue: seq<nat>, minW: map<nat, seq<nat>>, maxW: map<nat, seq<nat>>)
    requires OuterInv(a, L, queue, minW, maxW) && queue != []
    ensures InnerInv(a, L, queue[1..], minW, maxW, queue[0], 0, L, queue[1..])
  {
    assert queue[0] in L;
    forall s | s in L && s !in queue[1..] && s != queue[0]
      ensures Closed(a, L, s)
    {
      assert s !in queue;
    }
  }

  lemma EndInner(a: Automaton, L: LengthsMap, queue: seq<nat>, minW: map<nat, seq<nat>>, maxW: map<nat, seq<nat>>,
                 current: nat, L0: LengthsMap, q0: seq<nat>)
    requires current < |a.states|
    requires InnerInv(a, L, queue, minW, maxW, current, |a.states[current].trans|, L0, q0)
    ensures OuterInv(a, L, queue, minW, maxW)
  {
    assert Closed(a, L, current);
  }

  /** Transition `j` of `current` leads to a state whose range already covers the candidate. */
  lemma KeepRange(a: Automaton, L: LengthsMap, queue: seq<nat>, minW: map<nat, seq<nat>>, maxW: map<nat, seq<nat>>,
                  current: nat, j: nat, L0: LengthsMap, q0: seq<nat>)
    requires InnerInv(a, L, queue, minW, maxW, current, j, L0, q0) && j < |a.states[current].trans|
    requires var dest := a.states[current].trans[j].dest;
             dest in L && !Widen(L[dest], L[current].min + 1, L[current].max + 1).changed
    ensures InnerInv(a, L, queue, minW, maxW, current, j + 1, L0, q0)
  {
  }

  /** The recorded range of `dest` after transition `current -> dest` was relaxed, before the widening test. */
  ghost predicate Relaxed(L: LengthsMap, current: nat, dest: nat, r: Range)
    requires current in L
  {
    var newMin, newMax := L[current].min + 1, L[current].max + 1;
    if dest !in L then r == Range(newMin, newMax)
    else r == Widen(L[dest], newMin, newMax).range
  }

  /** The witness paths of `current`, extended by one edge, witness the new bounds of `dest`. */
  lemma WitnessStep(a: Automaton, L: LengthsMap, minW: map<nat, seq<nat>>, maxW: map<nat, seq<nat>>,
                    current: nat, dest: nat, r: Range)
    returns (minW': map<nat, seq<nat>>, maxW': map<nat, seq<nat>>)
    requires Shaped(a) && Witnessed(a, L, minW, maxW) && current in L && Edge(a, current, dest)
    requires Relaxed(L, current, dest, r)
    ensures Witnessed(a, L[dest := r], minW', maxW')
  {
    var newMin, newMax := L[current].min + 1, L[current].max + 1;
    PathExtend(a, minW[current], dest);
    PathExtend(a, maxW[current], dest);
    minW' := if dest !in L || newMin < L[dest].min then minW[dest := minW[current] + [dest]] else minW;
    maxW' := if dest !in L || newMax > L[dest].max then maxW[dest := maxW[current] + [dest]] else maxW;
  }

  /** The new bounds of `dest` stay within [0, n - 1], since they are lengths of paths in a finite automaton. */
  lemma BoundedStep(a: Automaton, L: LengthsMap, minW: map<nat, seq<nat>>, maxW: map<nat, seq<nat>>,
                    current: nat, dest: nat, r: Range)
    requires WellFormed(a) && a.finite && Bounded(a, L) && Witnessed(a, L, minW, maxW)
    requires current in L && Edge(a, current, dest)
    requires Relaxed(L, current, dest, r)
    ensures Bounded(a, L[dest := r]) && 0 <= r.min <= r.max < |a.states| && dest < |a.states|
  {
    PathExtend(a, maxW[current], dest);
    PathBound(a, maxW[current] + [dest]);
  }

  /** Relaxing transition `j` of `current` keeps the closure facts of the inner loop. */
  lemma ClosureStep(a: Automaton, L: LengthsMap, L': LengthsMap, queue: seq<nat>, current: nat, j: nat, dest: nat, r: Range)
    requires L' == L[dest := r]
    requires current in L && current < |a.states| && j < |a.states[current].trans|
    requires dest == a.states[current].trans[j].dest && dest != current
    requires Relaxed(L, current, dest, r)
    requires forall jj :: 0 <= jj < j ==> Covers(a, L, current, jj)
    requires forall s :: s in L && s !in queue && s != current ==> Closed(a, L, s)
    ensures forall jj :: 0 <= jj < j + 1 ==> Covers(a, L', current, jj)
    ensures forall s :: s in L' && s !in queue + [dest] && s != current ==> Closed(a, L', s)
  {
    forall s | s in L' && s !in queue + [dest] && s != current
      ensures Closed(a, L', s)
    {
      assert s != dest;
      ClosedAfterWiden(a, L, s, dest, r);
    }
    forall jj | 0 <= jj < j + 1
      ensures Covers(a, L', current, jj)
    {
      if jj < j {
        CoversAfterWiden(a, L, current, jj, dest, r);
      }
    }
  }

  /** Transition `j` of `current` discovers its destination or strictly widens its range: the frame part. */
  lemma RecordFrame(a: Automaton, L: LengthsMap, queue: seq<nat>, minW: map<nat, seq<nat>>, maxW: map<nat, seq<nat>>,
                    current: nat, j: nat, L0: LengthsMap, r: Range)
    returns (minW': map<nat, seq<nat>>, maxW': map<nat, seq<nat>>)
    requires InnerFrame(a, L, queue, minW, maxW, current, L0) && j < |a.states[current].trans|
    requires Relaxed(L, current, a.states[current].trans[j].dest, r)
    ensures var dest := a.states[current].trans[j].dest;
            InnerFrame(a, L[dest := r], queue + [dest], minW', maxW', current, L0)
  {
    var dest := a.states[current].trans[j].dest;
    assert Edge(a, current, dest);
    NoEdgeBack(a, maxW[current], dest);
    minW', maxW' := WitnessStep(a, L, minW, maxW, current, dest, r);
    BoundedStep(a, L, minW, maxW, current, dest, r);
    var L', queue' := L[dest := r], queue + [dest];
    assert forall i :: 0 <= i < |queue'| ==> queue'[i] in L';
  }

  /** Transition `j` of `current` discovers its destination or strictly widens its range: the progress part. */
  lemma RecordProgress(a: Automaton, L: LengthsMap, queue: seq<nat>, minW: map<nat, seq<nat>>, maxW: map<nat, seq<nat>>,
                       current: nat, j: nat, L0: LengthsMap, q0: seq<nat>, r: Range)
    requires InnerInv(a, L, queue, minW, maxW, current, j, L0, q0) && j < |a.states[current].trans|
    requires var dest := a.states[current].trans[j].dest;
             Relaxed(L, current, dest, r) &&
             (dest in L ==> Widen(L[dest], L[current].min + 1, L[current].max + 1).changed)
    ensures var dest := a.states[current].trans[j].dest;
            InnerProgress(a, L[dest := r], queue + [dest], current, j + 1, L0, q0)
  {
    var n := |a.states|;
    var dest := a.states[current].trans[j].dest;
    assert Edge(a, current, dest);
    NoEdgeBack(a, maxW[current], dest);
    BoundedStep(a, L, minW, maxW, current, dest, r);
    var L' := L[dest := r];
    WideningDrops(L, dest, r, n);
    ClosureStep(a, L, L', queue, current, j, dest, r);
  }

  /** At a fixpoint, every path's length lies within the range recorded for its last state. */
  lemma {:induction false} FixpointBoundsPaths(a: Automaton, L: LengthsMap, p: seq<nat>)
    requires Shaped(a) && IsPath(a, p)
    requires a.initial in L && L[a.initial] == Range(0, 0)
    requires Fixpoint(a, L)
    ensures Last(p) in L && L[Last(p)].min <= |p| - 1 <= L[Last(p)].max
    decreases |p|
  {
    if |p| > 1 {
      var q := p[..|p| - 1];
      PathPrefix(a, p);
      FixpointBoundsPaths(a, L, q);
      var s := Last(q);
      var j :| 0 <= j < |a.states[s].trans| && a.states[s].trans[j].dest == Last(p);
      assert Closed(a, L, s);
      assert Covers(a, L, s, j);
    }
  }

  /** When the queue is empty the invariant yields everything `exploreLengths` promises. */
  lemma FinishAnalysis(a: Automaton, L: LengthsMap, minW: map<nat, seq<nat>>, maxW: map<nat, seq<nat>>)
    requires OuterInv(a, L, [], minW, maxW)
    ensures a.initial in L && L[a.initial] == Range(0, 0)
    ensures forall s :: s in L <==> Reachable(a, s)
    ensures forall s :: s in L ==> s < |a.states| && 0 <= L[s].min <= L[s].max < |a.states|
    ensures forall s :: s in L ==> ExactRange(a, L, s)
    ensures Fixpoint(a, L)
  {
    forall p | IsPath(a, p)
      ensures Last(p) in L && L[Last(p)].min <= |p| - 1 <= L[Last(p)].max
    {
      FixpointBoundsPaths(a, L, p);
    }
    forall s | s in L
      ensures Reachable(a, s) && ExactRange(a, L, s)
    {
      assert IsPath(a, minW[s]) && IsPath(a, maxW[s]);
    }
  }

  /** Recording the widened range of `dest` and enqueueing it re-establishes the inner invariant one transition further. */
  lemma Record(a: Automaton, L: LengthsMap, queue: seq<nat>, minW: map<nat, seq<nat>>, maxW: map<nat, seq<nat>>,
               current: nat, j: nat, L0: LengthsMap, q0: seq<nat>, r: Range)
    returns (minW': map<nat, seq<nat>>, maxW': map<nat, seq<nat>>)
    requires InnerInv(a, L, queue, minW, maxW, current, j, L0, q0) && j < |a.states[current].trans|
    requires var dest := a.states[current].trans[j].dest;
             Relaxed(L, current, dest, r) &&
             (dest in L ==> Widen(L[dest], L[current].min + 1, L[current].max + 1).changed)
    ensures var dest := a.states[current].trans[j].dest;
            InnerInv(a, L[dest := r], queue + [dest], minW', maxW', current, j + 1, L0, q0)
  {
    RecordProgress(a, L, queue, minW, maxW, current, j, L0, q0, r);
    minW', maxW' := RecordFrame(a, L, queue, minW, maxW, current, j, L0, r);
  }

  /**
   * `exploreLengths(initialState, lengthsMap)` on a finite automaton: it
   * terminates, its keys are exactly the reachable states, the initial state
   * keeps (0, 0), every range is [shortest, longest] path length, and the
   * result is a fixpoint of the relaxation.
   */
  method ExploreLengths(a: Automaton) returns (L: LengthsMap)
    requires WellFormed(a) && a.finite
    ensures a.initial in L && L[a.initial] == Range(0, 0)
    ensures forall s :: s in L <==> Reachable(a, s)
    ensures forall s :: s in L ==> s < |a.states| && 0 <= L[s].min <= L[s].max < |a.states|
    ensures forall s :: s in L ==> ExactRange(a, L, s)
    ensures Fixpoint(a, L)
  {
    var n := |a.states|;
    var queue: seq<nat> := [a.initial];
    L := map[a.initial := Range(0, 0)];
    ghost var minW: map<nat, seq<nat>> := map[a.initial := [a.initial]];
    ghost var maxW := minW;
    while queue != []
      invariant OuterInv(a, L, queue, minW, maxW)
      decreases Potential(L, n, n), |queue|
    {
      StartInner(a, L, queue, minW, maxW);
      var current := queue[0];
      queue := queue[1..];
      ghost var L0, q0 := L, queue;
      var transitions := a.states[current].trans;
      var j := 0;
      while j < |transitions|
        invariant j <= |transitions|
        invariant InnerInv(a, L, queue, minW, maxW, current, j, L0, q0)
      {
        var dest := transitions[j].dest;
        var newMin := L[current].min + 1;
        var newMax := L[current].max + 1;
        if dest !in L {
          minW, maxW := Record(a, L, queue, minW, maxW, current, j, L0, q0, Range(newMin, newMax));
          L := L[dest := Range(newMin, newMax)];
          queue := queue + [dest];
        } else {
          var widened := Widen(L[dest], newMin, newMax);
          if widened.changed {
            minW, maxW := Record(a, L, queue, minW, maxW, current, j, L0, q0, widened.range);
            L := L[dest := widened.range];
            queue := queue + [dest];
          } else {
            KeepRange(a, L, queue, minW, maxW, current, j, L0, q0);
          }
        }
        j := j + 1;
      }
      EndInner(a, L, queue, minW, maxW, current, L0, q0);
    }
    FinishAnalysis(a, L, minW, maxW);
  }
}
