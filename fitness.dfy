/**
 * The four example objectives of the optimiser. Each one reads only the
 * first two components x = X[0], y = X[1] of a position, so each requires
 * a position of dimension at least two (a shorter one is an index error),
 * and hands them to the formula of two reals that follows it.
 */
module Fitness {

  /** The square of a real number (`a**2`), never negative. */
  function Sq(a: real): (r: real)
    ensures r >= 0.0
  {
    a * a
  }

  /** The cube of a real number (`a**3`); it keeps the sign of a non-negative base. */
  function Cube(a: real): (r: real)
    ensures a >= 0.0 ==> r >= 0.0
  {
    a * a * a
  }

  /**
   * Himmelblau's function (x^2 + y - 11)^2 + (x + y^2 - 7)^2, minimised.
   * As a sum of squares it is never negative, and it vanishes at the
   * documented optimum (3, 2).
   */
  function HimmelblauAt(x: real, y: real): (r: real)
    ensures r >= 0.0
    ensures x == 3.0 && y == 2.0 ==> r == 0.0
  {
    Sq(Sq(x) + y - 11.0) + Sq(x + Sq(y) - 7.0)
  }

  function Himmelblau(X: seq<real>): (r: real)
    requires |X| >= 2
    ensures r >= 0.0
    ensures X[0] == 3.0 && X[1] == 2.0 ==> r == 0.0
  {
    HimmelblauAt(X[0], X[1])
  }

  /**
   * Booth's function (x + 2y - 7)^2 + (2x + y - 5)^2, minimised; never
   * negative, zero at the documented optimum (1, 3).
   */
  function BoothAt(x: real, y: real): (r: real)
    ensures r >= 0.0
    ensures x == 1.0 && y == 3.0 ==> r == 0.0
  {
    Sq(x + 2.0 * y - 7.0) + Sq(2.0 * x + y - 5.0)
  }

  function Booth(X: seq<real>): (r: real)
    requires |X| >= 2
    ensures r >= 0.0
    ensures X[0] == 1.0 && X[1] == 3.0 ==> r == 0.0
  {
    BoothAt(X[0], X[1])
  }

  /**
   * Beale's function as it is coded,
   * (1.5 - x + xy)^2 + (2.25 - x + xy^2)^2 + (2.625 - x + xy^3)^2, minimised;
   * never negative, zero at the documented optimum (3, 0.5).
   */
  function BealeAt(x: real, y: real): (r: real)
    ensures r >= 0.0
    ensures x == 3.0 && y == 0.5 ==> r == 0.0
  {
    Sq(1.5 - x + x * y) + Sq(2.25 - x + x * Sq(y)) + Sq(2.625 - x + x * Cube(y))
  }

  function Beale(X: seq<real>): (r: real)
    requires |X| >= 2
    ensures r >= 0.0
    ensures X[0] == 3.0 && X[1] == 0.5 ==> r == 0.0
  {
    BealeAt(X[0], X[1])
  }

  /**
   * The maximisation example 2xy + 2x - x^2 - 2y^2. Completing the square
   * gives 2 - (x - y - 1)^2 - (y - 1)^2, so it never exceeds 2 and reaches
   * 2 at the documented maximiser (2, 1).
   */
  function ConcaveQuadraticAt(x: real, y: real): (r: real)
    ensures r == 2.0 - Sq(x - y - 1.0) - Sq(y - 1.0)
    ensures r <= 2.0
    ensures x == 2.0 && y == 1.0 ==> r == 2.0
  {
    assert Sq(x - y - 1.0) == Sq(x) + Sq(y) + 1.0 - 2.0 * x * y - 2.0 * x + 2.0 * y;
    assert Sq(y - 1.0) == Sq(y) - 2.0 * y + 1.0;
    2.0 * x * y + 2.0 * x - Sq(x) - 2.0 * Sq(y)
  }

  function ConcaveQuadratic(X: seq<real>): (r: real)
    requires |X| >= 2
    ensures r <= 2.0
    ensures X[0] == 2.0 && X[1] == 1.0 ==> r == 2.0
  {
    ConcaveQuadraticAt(X[0], X[1])
  }

  /**
   * Every example objective depends on the first two components only:
   * positions that agree there have the same fitness, whatever follows.
   */
  lemma OnlyFirstTwoComponentsMatter(X: seq<real>, Y: seq<real>)
    requires |X| >= 2 && |Y| >= 2
    requires X[0] == Y[0] && X[1] == Y[1]
    ensures Himmelblau(X) == Himmelblau(Y)
    ensures Booth(X) == Booth(Y)
    ensures Beale(X) == Beale(Y)
    ensures ConcaveQuadratic(X) == ConcaveQuadratic(Y)
  {
  }

  /**
   * The documented optima are global: no position has a smaller value
   * (a larger one, for the maximisation example).
   */
  lemma DocumentedOptimaAreGlobal(X: seq<real>)
    requires |X| >= 2
    ensures Himmelblau([3.0, 2.0]) <= Himmelblau(X)
    ensures Booth([1.0, 3.0]) <= Booth(X)
    ensures Beale([3.0, 0.5]) <= Beale(X)
    ensures ConcaveQuadratic(X) <= ConcaveQuadratic([2.0, 1.0])
  {
  }
}
