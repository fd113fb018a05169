/**
 * The particle record the neighbour searches work on, and the connection test
 * the three drawing strategies share. The particle class itself (its motion and
 * drawing) is not part of this model: a particle is its identity and position.
 */
module Points {

  /**
   * A particle: `id` stands for the object's identity (the controller uses its
   * index in the particle array), `x` and `y` for its position.
   */
  datatype Particle = Particle(id: nat, x: int, y: int)

  function Abs(n: int): nat {
    if n < 0 then -n else n
  }

  /** The squared distance between two particles. */
  function DistanceSquared(a: Particle, b: Particle): (d: nat)
    ensures d == (a.x - b.x) * (a.x - b.x) + (a.y - b.y) * (a.y - b.y)
  {
    var dx := a.x - b.x;
    var dy := a.y - b.y;
    SquareNonNegative(dx);
    SquareNonNegative(dy);
    dx * dx + dy * dy
  }

  /** Two particles are drawn connected when their squared distance is strictly below the squared connection distance. */
  predicate Connected(a: Particle, b: Particle, connectionDistance: int)
    ensures Connected(a, b, connectionDistance) ==> connectionDistance != 0
  {
    SquarePositive(connectionDistance);
    DistanceSquared(a, b) < connectionDistance * connectionDistance
  }

  lemma SquarePositive(n: int)
    ensures n != 0 <==> n * n > 0
  {
    if n < 0 {
      assert n * n == (-n) * (-n);
    }
  }

  lemma SquareNonNegative(n: int)
    ensures n * n >= 0
  {
    if n < 0 {
      assert n * n == (-n) * (-n);
    }
  }

  /** Squaring is monotone on non-negative numbers. */
  lemma SquareMonotone(a: nat, b: nat)
    requires a <= b
    ensures a * a <= b * b
  {
    assert a * a <= a * b by {
      MultiplyMonotone(a, a, b);
    }
    assert a * b <= b * b by {
      MultiplyMonotone(b, a, b);
    }
  }

  lemma MultiplyMonotone(k: nat, a: int, b: int)
    requires a <= b
    ensures k * a <= k * b
  {
    assert k * b - k * a == k * (b - a);
  }

  /** A connected pair is closer than the connection distance along each axis. */
  lemma ConnectedAxes(a: Particle, b: Particle, c: int)
    requires c > 0 && Connected(a, b, c)
    ensures Abs(a.x - b.x) < c && Abs(a.y - b.y) < c
  {
    var dx, dy := Abs(a.x - b.x), Abs(a.y - b.y);
    assert dx * dx == (a.x - b.x) * (a.x - b.x);
    assert dy * dy == (a.y - b.y) * (a.y - b.y);
    SquareNonNegative(a.x - b.x);
    SquareNonNegative(a.y - b.y);
    if dx >= c {
      SquareMonotone(c, dx);
    }
    if dy >= c {
      SquareMonotone(c, dy);
    }
  }

  /** Every particle is connected to itself when the connection distance is not zero. */
  lemma SelfConnected(a: Particle, c: int)
    requires c != 0
    ensures Connected(a, a, c)
  {
    assert DistanceSquared(a, a) == 0;
  }

  /** Connection does not depend on the order of the two particles. */
  lemma ConnectedSymmetric(a: Particle, b: Particle, c: int)
    ensures Connected(a, b, c) <==> Connected(b, a, c)
  {
    assert (a.x - b.x) * (a.x - b.x) == (b.x - a.x) * (b.x - a.x);
    assert (a.y - b.y) * (a.y - b.y) == (b.y - a.y) * (b.y - a.y);
  }
}
