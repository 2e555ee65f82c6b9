/** The geometry of a drawn line: its points in closed form. */
module Raster {
  function Abs(x: int): nat {
    if x < 0 then -x else x
  }

  function Max(a: nat, b: nat): nat {
    if a >= b then a else b
  }

  /** `n / d` rounded to the nearest integer, halves up. */
  function Round(n: nat, d: nat): (q: nat)
    requires d > 0
  {
    (2 * n + d) / (2 * d)
  }

  lemma DivIs(m: nat, e: nat, q: nat)
    requires e > 0 && e * q <= m < e * (q + 1)
    ensures m / e == q
  {
    var p := m / e;
    DivBounds(m, e);
    if p < q {
      MulLe(e, p + 1, q);
    } else if p > q {
      MulLe(e, q + 1, p);
    }
  }

  lemma MulLe(d: nat, x: nat, y: nat)
    requires x <= y
    ensures d * x <= d * y
  {
  }

  lemma DivBounds(m: nat, e: nat)
    requires e > 0
    ensures e * (m / e) <= m < e * (m / e + 1)
  {
    assert m == (m / e) * e + m % e;
  }

  /** Rounding, as the inequality it stands for. */
  lemma RoundIs(n: nat, d: nat, q: nat)
    requires d > 0
    ensures q == Round(n, d) <==> 2 * (d * q) <= 2 * n + d < 2 * (d * q) + 2 * d
  {
    var e, m := 2 * d, 2 * n + d;
    assert e * q == 2 * (d * q) && e * (q + 1) == 2 * (d * q) + 2 * d;
    if q == Round(n, d) {
      DivBounds(m, e);
    } else if 2 * (d * q) <= m < 2 * (d * q) + 2 * d {
      DivIs(m, e, q);
    }
  }

  /** Rounding one slope step further moves by one exactly when the error says so. */
  lemma RoundStep(d: nat, s: nat, k: nat)
    requires 0 < d && s <= d
    ensures var q := Round(k * s, d);
            Round((k + 1) * s, d) == q + if 2 * (q * d) + d <= 2 * ((k + 1) * s) then 1 else 0
  {
    var q := Round(k * s, d);
    var n := k * s;
    assert (k + 1) * s == n + s;
    RoundIs(n, d, q);
    RoundIs(n + s, d, q);
    RoundIs(n + s, d, q + 1);
    assert d * (q + 1) == d * q + d && q * d == d * q;
  }

  // ----- the points --------------------------------------------------------

  /** After `k` steps over a distance of `a` columns and `b` rows: columns passed ... */
  function Columns(a: nat, b: nat, k: nat): nat {
    if a >= b then k else Round(k * a, b)
  }

  /** ... and rows passed. */
  function Rows(a: nat, b: nat, k: nat): nat {
    if a < b then k else if a == 0 then 0 else Round(k * b, a)
  }

  /** The decision variable after `k` steps. */
  function Error(a: nat, b: nat, k: nat): int {
    (Rows(a, b, k) + 1) * a - (Columns(a, b, k) + 1) * b
  }

  /** The two comparisons of the loop pick exactly the next rounded point. */
  lemma StepIsRounding(a: nat, b: nat, k: nat)
    requires k < Max(a, b)
    ensures var e, i, j := Error(a, b, k), Columns(a, b, k), Rows(a, b, k);
            && Columns(a, b, k + 1) == i + (if 2 * e + b >= 0 then 1 else 0)
            && Rows(a, b, k + 1) == j + (if 2 * e <= a then 1 else 0)
            && Error(a, b, k + 1) == e - (if 2 * e + b >= 0 then b else 0) + (if 2 * e <= a then a else 0)
  {
    if a >= b {
      Shallow(a, b, k);
    } else {
      Steep(a, b, k);
    }
    var e, i, j := Error(a, b, k), Columns(a, b, k), Rows(a, b, k);
    assert (i + 2) * b == (i + 1) * b + b && (j + 2) * a == (j + 1) * a + a;
  }

  /** The linear facts behind a step, with every product given a name. */
  lemma StepFacts(d: nat, s: nat, k: nat, q: nat)
    requires 0 < d && s <= d && q == Round(k * s, d)
    ensures (q + 1) * d == d * q + d && (k + 1) * s == k * s + s
    ensures 2 * (d * q) <= 2 * (k * s) + d < 2 * (d * q) + 2 * d
    ensures Round((k + 1) * s, d) == q + if 2 * (d * q) + d <= 2 * (k * s) + 2 * s then 1 else 0
  {
    RoundStep(d, s, k);
    RoundIs(k * s, d, q);
    Products(d, q, k, s);
  }

  lemma Products(d: nat, q: nat, k: nat, s: nat)
    ensures (q + 1) * d == d * q + d && (k + 1) * s == k * s + s && q * d == d * q
  {
  }

  /** The comparison with the long axis always holds; the other one is the rounding. */
  lemma Decide(d: int, s: int, dq: int, n: int)
    requires 0 <= s <= d && 2 * dq <= 2 * n + d < 2 * dq + 2 * d
    ensures 2 * ((dq + d) - (n + s)) + s >= 0
    ensures 2 * dq + d <= 2 * n + 2 * s <==> 2 * ((dq + d) - (n + s)) <= d
  {
  }

  lemma Shallow(a: nat, b: nat, k: nat)
    requires b <= a && k < a
    ensures var e := Error(a, b, k);
            && 2 * e + b >= 0
            && Rows(a, b, k + 1) == Rows(a, b, k) + (if 2 * e <= a then 1 else 0)
  {
    var j := Rows(a, b, k);
    StepFacts(a, b, k, j);
    Decide(a, b, a * j, k * b);
    assert Error(a, b, k) == (a * j + a) - (k * b + b);
  }

  lemma Steep(a: nat, b: nat, k: nat)
    requires a < b && k < b
    ensures var e := Error(a, b, k);
            && 2 * e <= a
            && Columns(a, b, k + 1) == Columns(a, b, k) + (if 2 * e + b >= 0 then 1 else 0)
  {
    var i := Columns(a, b, k);
    StepFacts(b, a, k, i);
    Decide(b, a, b * i, k * a);
    assert Error(a, b, k) == (k * a + a) - (b * i + b);
  }

  /** The walk starts at the start, ends at the end, never leaves the box between, and
      stays within half a pixel of the true line. */
  lemma WalkStays(a: nat, b: nat, k: nat)
    requires k <= Max(a, b)
    ensures Columns(a, b, k) <= a && Rows(a, b, k) <= b
    ensures Columns(a, b, 0) == 0 && Rows(a, b, 0) == 0
    ensures Columns(a, b, Max(a, b)) == a && Rows(a, b, Max(a, b)) == b
    ensures 2 * Abs(Rows(a, b, k) * a - Columns(a, b, k) * b) <= Max(a, b)
  {
    if a >= b {
      if a > 0 {
        Within(a, b, k);
      }
    } else {
      Within(b, a, k);
    }
  }

  lemma Within(d: nat, s: nat, k: nat)
    requires 0 < d && s <= d && k <= d
    ensures Round(k * s, d) <= s && Round(0 * s, d) == 0 && Round(d * s, d) == s
    ensures 2 * Abs(Round(k * s, d) * d - k * s) <= d
  {
    RoundIs(0, d, 0);
    RoundIs(d * s, d, s);
    assert 0 * s == 0;
    Near(d, s, k);
    Bounded(d, s, k);
  }

  lemma Near(d: nat, s: nat, k: nat)
    requires 0 < d
    ensures 2 * Abs(Round(k * s, d) * d - k * s) <= d
  {
    var n, q := k * s, Round(k * s, d);
    RoundIs(n, d, q);
    assert q * d == d * q;
  }

  lemma Bounded(d: nat, s: nat, k: nat)
    requires 0 < d && k <= d
    ensures Round(k * s, d) <= s
  {
    var n, q := k * s, Round(k * s, d);
    RoundIs(n, d, q);
    MulLe(s, k, d);
    assert n == s * k && s * d == d * s && d * (s + 1) == d * s + d;
    if q > s {
      MulLe(d, s + 1, q);
    }
  }

  // ----- lines -----------------------------------------------------------------

  datatype Point = Point(x: int, y: int)

  function Steps(p: Point, q: Point): nat {
    Max(Abs(q.x - p.x), Abs(q.y - p.y))
  }

  /** The `k`-th point of the line from `p` to `q`. */
  function PointAt(p: Point, q: Point, k: nat): Point {
    var a, b := Abs(q.x - p.x), Abs(q.y - p.y);
    Point(if p.x < q.x then p.x + Columns(a, b, k) else p.x - Columns(a, b, k),
          if p.y < q.y then p.y + Rows(a, b, k) else p.y - Rows(a, b, k))
  }

  predicate Between(u: int, x: int, v: int) {
    u <= x <= v || v <= x <= u
  }

  /** The line runs from `p` to `q` inside the box they span, reaches `q` only at its
      last step and never visits a point twice. */
  lemma LineShape(p: Point, q: Point, k: nat)
    requires k <= Steps(p, q)
    ensures Between(p.x, PointAt(p, q, k).x, q.x) && Between(p.y, PointAt(p, q, k).y, q.y)
    ensures PointAt(p, q, 0) == p && PointAt(p, q, Steps(p, q)) == q
    ensures forall m: nat | m < k :: PointAt(p, q, m) != PointAt(p, q, k)
  {
    WalkStays(Abs(q.x - p.x), Abs(q.y - p.y), k);
  }
}
