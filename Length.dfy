/**
 * The length interval of `io.github.yayakm.util.Length`: a mutable pair
 * `[min, max]` that is widened in place during the length analysis.
 */
module Lengths {
  import opened Wrappers
  import opened Failures

  /** The value a `Length` object holds. */
  datatype Range = Range(min: int, max: int)

  /** The value `update(newMin, newMax)` leaves behind, and whether it reported a change. */
  datatype Widened = Widened(range: Range, changed: bool)

  /**
   * Widening by a candidate interval: the smallest interval that keeps every
   * bound of `r` and reaches the candidate's bounds, with `changed` reporting
   * whether a bound moved.
   */
  function Widen(r: Range, newMin: int, newMax: int): (w: Widened)
    ensures w.range.min <= r.min && w.range.max >= r.max
    ensures w.range.min <= newMin && w.range.max >= newMax
    ensures (w.range.min == r.min || w.range.min == newMin) && (w.range.max == r.max || w.range.max == newMax)
    ensures w.changed <==> newMin < r.min || newMax > r.max
    ensures !w.changed ==> w.range == r
    ensures r.min <= r.max ==> w.range.min <= w.range.max
  {
    var lo := if newMin < r.min then newMin else r.min;
    var hi := if newMax > r.max then newMax else r.max;
    Widened(Range(lo, hi), newMin < r.min || newMax > r.max)
  }

  /** Widening twice by the same candidate reports no change the second time. */
  lemma WidenIdempotent(r: Range, newMin: int, newMax: int)
    ensures var w := Widen(r, newMin, newMax).range;
            Widen(w, newMin, newMax) == Widened(w, false)
  {
  }

  class Length {
    var min: int
    var max: int

    /** Every operation keeps min <= max; `setMin` may make min negative. */
    ghost predicate Valid()
      reads this
    {
      min <= max
    }

    function Value(): (r: Range)
      reads this
    {
      Range(min, max)
    }

    /** The constructor once its validation has passed; `NewLength` models the validation. */
    constructor (min: int, max: int)
      requires 0 <= min <= max
      ensures Valid() && Value() == Range(min, max)
    {
      this.min := min;
      this.max := max;
    }

    method Update(newMin: int, newMax: int) returns (changed: bool)
      requires Valid()
      modifies this
      ensures Valid()
      ensures Widened(Value(), changed) == Widen(old(Value()), newMin, newMax)
    {
      changed := false;
      if newMin < min {
        min := newMin;
        changed := true;
      }
      if newMax > max {
        max := newMax;
        changed := true;
      }
    }

    method SetMin(m: int) returns (o: Outcome<Failure>)
      requires Valid()
      modifies this
      ensures Valid()
      ensures o.Fail? <==> m > old(max)
      ensures o.Fail? ==> o.error == IllegalArgument && Value() == old(Value())
      ensures o.Pass? ==> Value() == Range(m, old(max))
    {
      if m > max {
        return Fail(IllegalArgument);
      }
      min := m;
      o := Pass;
    }

    method SetMax(m: int) returns (o: Outcome<Failure>)
      requires Valid()
      modifies this
      ensures Valid()
      ensures o.Fail? <==> m < old(min)
      ensures o.Fail? ==> o.error == IllegalArgument && Value() == old(Value())
      ensures o.Pass? ==> Value() == Range(old(min), m)
    {
      if m < min {
        return Fail(IllegalArgument);
      }
      max := m;
      o := Pass;
    }
  }

  /** `new Length(min, max)`: throws exactly when min < 0 or max < min. */
  method NewLength(min: int, max: int) returns (r: Result<Length, Failure>)
    ensures r.Err? <==> min < 0 || max < min
    ensures r.Err? ==> r.error == IllegalArgument
    ensures r.Ok? ==> fresh(r.value) && r.value.Valid() && r.value.Value() == Range(min, max)
  {
    if min < 0 || max < min {
      return Err(IllegalArgument);
    }
    var len := new Length(min, max);
    r := Ok(len);
  }

  /** Whether the constructor would accept the pair, as a value. */
  function CheckRange(min: int, max: int): (r: Result<Range, Failure>)
    ensures r.Err? <==> min < 0 || max < min
    ensures r.Err? ==> r.error == IllegalArgument
    ensures r.Ok? ==> r.value == Range(min, max) && 0 <= r.value.min <= r.value.max
  {
    if min < 0 || max < min then Err(IllegalArgument) else Ok(Range(min, max))
  }
}
