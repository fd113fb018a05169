/**
 * The bouncing circle: each update reverses the velocity along an axis on which
 * the circle overlaps or lies past an edge of the canvas, then moves the circle
 * by its (possibly reversed) velocity. The two axes are independent, so the
 * rule is stated once for one axis.
 */
module Bounce {

  /** The circle reaches past the low (0) or the high (`size`) edge of an axis. */
  predicate Hits(pos: real, radius: real, size: real) {
    pos + radius > size || pos - radius < 0.0
  }

  /** A position and a velocity along one axis. */
  datatype Axis = Axis(pos: real, vel: real)

  /** One update along one axis: reflect when the edge test holds before the move, then advance. */
  function Step(a: Axis, radius: real, size: real): (b: Axis)
    ensures b.pos == a.pos + b.vel
    ensures Hits(a.pos, radius, size) ==> b.vel == -a.vel
    ensures !Hits(a.pos, radius, size) ==> b.vel == a.vel
  {
    var vel := if Hits(a.pos, radius, size) then -a.vel else a.vel;
    Axis(a.pos + vel, vel)
  }

  /** The circle fits between the edges of the axis. */
  predicate Inside(pos: real, radius: real, size: real) {
    !Hits(pos, radius, size)
  }

  /**
   * The circle is inside, or was inside one step ago. Updates keep this, so a
   * circle that starts inside never gets farther out than one step.
   */
  predicate NearInside(a: Axis, radius: real, size: real) {
    Inside(a.pos, radius, size) || Inside(a.pos - a.vel, radius, size)
  }

  lemma StepKeepsNearInside(a: Axis, radius: real, size: real)
    requires NearInside(a, radius, size)
    ensures NearInside(Step(a, radius, size), radius, size)
  {
  }

  /** The axis after `n` updates. */
  function Steps(a: Axis, radius: real, size: real, n: nat): Axis
    decreases n
  {
    if n == 0 then a else Steps(Step(a, radius, size), radius, size, n - 1)
  }

  function AbsReal(r: real): real {
    if r < 0.0 then -r else r
  }

  /** Any number of updates keep a circle that starts inside within its speed of the inside, and keep its speed. */
  lemma {:induction false} StepsStayNearInside(a: Axis, radius: real, size: real, n: nat)
    requires Inside(a.pos, radius, size)
    ensures var b := Steps(a, radius, size, n);
      && NearInside(b, radius, size)
      && AbsReal(b.vel) == AbsReal(a.vel)
      && radius - AbsReal(a.vel) <= b.pos <= size - radius + AbsReal(a.vel)
  {
    NearInsideSteps(a, radius, size, n);
  }

  lemma {:induction false} NearInsideSteps(a: Axis, radius: real, size: real, n: nat)
    requires NearInside(a, radius, size)
    ensures NearInside(Steps(a, radius, size, n), radius, size)
    ensures AbsReal(Steps(a, radius, size, n).vel) == AbsReal(a.vel)
    decreases n
  {
    if n > 0 {
      StepKeepsNearInside(a, radius, size);
      NearInsideSteps(Step(a, radius, size), radius, size, n - 1);
    }
  }

  /**
   * A circle that is outside and would still be outside after stepping back
   * by its velocity (a circle left outside when the canvas shrank, say)
   * reverses on every update and returns to where it was every
   * second update: it never comes back in.
   */
  lemma TrappedOutside(a: Axis, radius: real, size: real)
    requires !Inside(a.pos, radius, size) && !Inside(a.pos - a.vel, radius, size)
    ensures Step(a, radius, size).vel == -a.vel
    ensures Steps(a, radius, size, 2) == a
  {
    var b := Step(a, radius, size);
    assert b == Axis(a.pos - a.vel, -a.vel);
    assert Step(b, radius, size) == Axis(a.pos, a.vel) by {
      assert b.pos - b.vel == a.pos;
    }
  }

  /** The moving circle of the bounce animation. */
  class CircleBounce {
    var x: real
    var y: real
    var vx: real
    var vy: real
    var radius: real
    /** The fill colour; it only affects drawing. */
    var color: string

    /** The circle at (x, y) with the given radius and colour, moving by (vx, vy) per update. */
    constructor(x: real, y: real, radius: real, color: string, vx: real, vy: real)
      ensures this.x == x && this.y == y && this.radius == radius && this.color == color
      ensures this.vx == vx && this.vy == vy
    {
      this.x := x;
      this.y := y;
      this.radius := radius;
      this.color := color;
      this.vx := vx;
      this.vy := vy;
    }

    /** One frame on a canvas of the given size; drawing is not modelled. */
    method Update(width: real, height: real)
      modifies this
      ensures Axis(x, vx) == Step(Axis(old(x), old(vx)), radius, width)
      ensures Axis(y, vy) == Step(Axis(old(y), old(vy)), radius, height)
      ensures radius == old(radius) && color == old(color)
    {
      if x + radius > width || x - radius < 0.0 {
        vx := -vx;
      }
      if y + radius > height || y - radius < 0.0 {
        vy := -vy;
      }
      x := x + vx;
      y := y + vy;
    }
  }
}
