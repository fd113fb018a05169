/**
 * The pointer of the particle field: optional coordinates and a radius that
 * grows and shrinks against a one-sided bound each way.
 */
module Pointers {
  import opened Wrappers

  /** The argument `reduceRadius` uses when it is called with none. */
  const DefaultReduction: real := -1.0

  /** The radius after growing by `value`, capped from above at `maxRadius` (and not bounded below). */
  function Increased(radius: real, value: real, maxRadius: real): (r: real)
    ensures r <= maxRadius && r <= radius + value
    ensures r == maxRadius || r == radius + value
  {
    var grown := radius + value;
    if grown > maxRadius then maxRadius else grown
  }

  /** The radius after shrinking by `value`, capped from below at `minRadius` (and not bounded above). */
  function Reduced(radius: real, value: real, minRadius: real): (r: real)
    ensures r >= minRadius && r >= radius - value
    ensures r == minRadius || r == radius - value
  {
    var shrunk := radius - value;
    if shrunk < minRadius then minRadius else shrunk
  }

  /** One call of `increaseRadius` or `reduceRadius` with its argument. */
  datatype RadiusChange = Increase(amount: real) | Reduce(amount: real)

  function Change(radius: real, minRadius: real, maxRadius: real, c: RadiusChange): real {
    match c
    case Increase(v) => Increased(radius, v, maxRadius)
    case Reduce(v) => Reduced(radius, v, minRadius)
  }

  /** The radius after the calls `cs`, first to last. */
  function Changes(radius: real, minRadius: real, maxRadius: real, cs: seq<RadiusChange>): real
    decreases |cs|
  {
    if cs == [] then radius else Changes(Change(radius, minRadius, maxRadius, cs[0]), minRadius, maxRadius, cs[1..])
  }

  /**
   * A radius within its bounds stays within them through any sequence of
   * calls whose arguments are not negative.
   */
  lemma {:induction false} ChangesStayInRange(radius: real, minRadius: real, maxRadius: real, cs: seq<RadiusChange>)
    requires minRadius <= radius <= maxRadius
    requires forall i :: 0 <= i < |cs| ==> cs[i].amount >= 0.0
    ensures minRadius <= Changes(radius, minRadius, maxRadius, cs) <= maxRadius
    decreases |cs|
  {
    if cs != [] {
      var next := Change(radius, minRadius, maxRadius, cs[0]);
      assert minRadius <= next <= maxRadius;
      ChangesStayInRange(next, minRadius, maxRadius, cs[1..]);
    }
  }

  /** Without a bound on the arguments the range is not kept: growing by a negative amount passes below `minRadius`. */
  lemma NegativeIncreaseLeavesRange()
    ensures Changes(120.0, 0.0, 180.0, [Increase(-200.0)]) == -80.0
  {
  }

  /** Reducing by the default argument grows the radius by one, and nothing caps it at `maxRadius`. */
  lemma DefaultReductionGrows(radius: real, minRadius: real, maxRadius: real)
    requires minRadius <= radius
    ensures Reduced(radius, DefaultReduction, minRadius) == radius + 1.0
    ensures radius == maxRadius ==> Reduced(radius, DefaultReduction, minRadius) > maxRadius
  {
  }

  class Pointer {
    var x: Option<real>
    var y: Option<real>
    var radius: real
    var minRadius: real
    var maxRadius: real

    /** No coordinates yet; radius 120 within the bounds 0 and 180, unless given. */
    constructor(x: Option<real> := None, y: Option<real> := None, radius: real := 120.0,
                minRadius: real := 0.0, maxRadius: real := 180.0)
      ensures this.x == x && this.y == y && this.radius == radius
      ensures this.minRadius == minRadius && this.maxRadius == maxRadius
    {
      this.x := x;
      this.y := y;
      this.radius := radius;
      this.minRadius := minRadius;
      this.maxRadius := maxRadius;
    }

    method SetCoordinates(x: real, y: real)
      modifies this
      ensures this.x == Some(x) && this.y == Some(y)
      ensures radius == old(radius) && minRadius == old(minRadius) && maxRadius == old(maxRadius)
    {
      this.x := Some(x);
      this.y := Some(y);
    }

    method IncreaseRadius(value: real := 1.0)
      modifies this
      ensures radius == Change(old(radius), minRadius, maxRadius, Increase(value))
      ensures x == old(x) && y == old(y) && minRadius == old(minRadius) && maxRadius == old(maxRadius)
    {
      var newRadius := radius + value;
      radius := if newRadius > maxRadius then maxRadius else newRadius;
    }

    method ReduceRadius(value: real := DefaultReduction)
      modifies this
      ensures radius == Change(old(radius), minRadius, maxRadius, Reduce(value))
      ensures x == old(x) && y == old(y) && minRadius == old(minRadius) && maxRadius == old(maxRadius)
    {
      var newRadius := radius - value;
      radius := if newRadius < minRadius then minRadius else newRadius;
    }
  }

  /** A fresh pointer keeps its radius within its bounds through growing by 10 and reducing by 2, as the particle field calls them, and the default reduction then leaves the bounds. */
  method DefaultPointerScenario() returns (p: Pointer)
    ensures p.radius == 181.0 && p.radius > p.maxRadius
  {
    p := new Pointer();
    assert p.x == None && p.radius == 120.0;
    p.IncreaseRadius(10.0);
    p.ReduceRadius(2.0);
    assert p.radius == 128.0;
    p.IncreaseRadius(100.0);
    assert p.radius == 180.0;
    p.ReduceRadius();
  }
}
