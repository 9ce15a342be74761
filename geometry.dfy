/** Optional values: the model's stand-in for a nullable node reference. */
module Optional {
  datatype Option<+T> = None | Some(value: T)
}

/**
 * Plane geometry shared by the board, the player and the ghosts.
 * Positions, directions and timers are reals; square roots are never taken:
 * every distance comparison of the game is made on squared distances,
 * which orders points the same way (see SquaredOrderMatchesDistance).
 */
module Geometry {
  datatype Vec = Vec(x: real, y: real)

  const Zero := Vec(0.0, 0.0)
  const Left := Vec(-1.0, 0.0)
  const Right := Vec(1.0, 0.0)
  const Up := Vec(0.0, 1.0)
  const Down := Vec(0.0, -1.0)

  function Add(a: Vec, b: Vec): Vec { Vec(a.x + b.x, a.y + b.y) }

  function Sub(a: Vec, b: Vec): Vec { Vec(a.x - b.x, a.y - b.y) }

  function Scale(a: Vec, k: real): Vec { Vec(a.x * k, a.y * k) }

  function Neg(a: Vec): Vec { Vec(-a.x, -a.y) }

  function SqLen(a: Vec): real { a.x * a.x + a.y * a.y }

  /** Squared Euclidean distance: Vector2.sqrMagnitude of the difference. */
  function SqDist(a: Vec, b: Vec): real { SqLen(Sub(a, b)) }

  function Abs(r: real): real { if r < 0.0 then -r else r }

  /** Mathf.RoundToInt, taken as rounding half up. */
  function Round(r: real): (n: int)
    ensures r - 0.5 < n as real <= r + 0.5
  {
    (r + 0.5).Floor
  }

  /** A position rounded to its integer tile. */
  function RoundVec(v: Vec): (t: Vec)
    ensures SqDist(t, v) <= 0.5
  {
    Vec(Round(v.x) as real, Round(v.y) as real)
  }

  /** The C# cast (int) of a non-negative float: truncation toward zero. */
  function Truncate(r: real): (n: int)
    requires r >= 0.0
    ensures 0 <= n && n as real <= r < n as real + 1.0
  {
    r.Floor
  }

  /**
   * For non-negative roots, comparing squares compares the roots: the
   * reason every `Mathf.Sqrt` distance comparison of the source can be made
   * on squared distances.
   */
  lemma SquaredOrderMatchesDistance(a: real, b: real)
    requires a >= 0.0 && b >= 0.0
    ensures a < b <==> a * a < b * b
    ensures a == b <==> a * a == b * b
  {
    if a < b {
      ProductBelow(a, b);
    } else if b < a {
      ProductBelow(b, a);
    }
  }

  lemma ProductBelow(a: real, b: real)
    requires 0.0 <= a < b
    ensures a * a < b * b
  {
    var ab := a * b;
    assert a * a <= ab by { assert a * (b - a) >= 0.0; }
    assert ab < b * b by { assert (b - a) * b > 0.0; }
  }

  /**
   * A square is never negative, and is zero only at zero. The zero comes in
   * as the variable `z`: with a literal in its place the squares lose their
   * shared form and the callers' arithmetic no longer closes.
   */
  lemma SquareAbove(u: real, z: real)
    requires z == 0.0
    ensures u * u >= z * z
    ensures u != z ==> u * u > z * z
  {
    if u > z {
      ProductBelow(z, u);
    } else if u < z {
      ProductBelow(z, -u);
      assert (-u) * (-u) == u * u;
    }
  }

  lemma SumOfSquaresZero(u: real, v: real)
    requires u * u + v * v == 0.0
    ensures u == 0.0 && v == 0.0
  {
    var z := 0.0;
    SquareAbove(u, z);
    SquareAbove(v, z);
  }
}
