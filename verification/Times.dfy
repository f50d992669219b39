// Discrete time, time intervals, and the symbolic infinity of the analysis.
module Times {

  /** A time that may be infinite: the source's largest time value only ever means "never". */
  datatype Bound = Fin(t: int) | Inf

  /** The bound has been reached at time `x`. */
  predicate Reached(b: Bound, x: int) {
    b.Fin? && b.t <= x
  }

  predicate LeB(a: Bound, b: Bound) {
    b.Inf? || (a.Fin? && a.t <= b.t)
  }

  function MinB(a: Bound, b: Bound): Bound {
    if LeB(a, b) then a else b
  }

  function MaxB(a: Bound, b: Bound): Bound {
    if LeB(a, b) then b else a
  }

  function Min(a: int, b: int): int {
    if a <= b then a else b
  }

  function Larger(a: nat, b: nat): nat {
    if a > b then a else b
  }

  function Max(a: int, b: int): int {
    if a <= b then b else a
  }

  /** The smaller of a time and a bound. */
  function Cap(x: int, b: Bound): int {
    if b.Fin? then Min(x, b.t) else x
  }

  /** The bound one time unit later; infinity stays infinity. */
  function Next(b: Bound): Bound {
    if b.Fin? then Fin(b.t + 1) else Inf
  }

  /** The bound one time unit earlier; infinity stays infinity. */
  function Prev(b: Bound): Bound {
    if b.Fin? then Fin(b.t - 1) else Inf
  }

  datatype Interval = Interval(min: int, max: int) {
    predicate Ok() {
      min <= max
    }

    predicate Has(x: int) {
      min <= x <= max
    }

    predicate Contains(other: Interval) {
      min <= other.min && other.max <= max
    }

    // Consecutive integer intervals count as intersecting: their union has no gap.
    predicate Intersects(other: Interval) {
      !(other.max + 1 < min || max + 1 < other.min)
    }

    function Widen(other: Interval): Interval {
      Interval(Min(min, other.min), Max(max, other.max))
    }
  }

  /** The two-argument constructor orders its arguments. */
  function Span(a: int, b: int): (r: Interval)
    ensures r.Ok()
  {
    if a > b then Interval(b, a) else Interval(a, b)
  }

  datatype Option<+T> = None | Some(value: T)
}
