/** A canvas of RGBA pixels in one byte buffer, changed in place. */
module Canvas {
  import opened Raster

  type Byte = b: int | 0 <= b < 256

  /** Four bytes per pixel: a colour of any other length would resize the buffer. */
  type Color = c: seq<Byte> | |c| == 4 witness [0, 0, 0, 255]

  const MAX_IMAGE_SIDE: int := 512

  function Side(n: int): nat {
    if n > MAX_IMAGE_SIDE then MAX_IMAGE_SIDE else if n < 1 then 1 else n
  }

  // ----- where a pixel lives -------------------------------------------------

  lemma Inside(w: nat, h: nat, x: int, y: int)
    requires 0 <= x < w && 0 <= y < h
    ensures 0 <= y * w + x < w * h
  {
    assert (y + 1) * w <= h * w;
    assert (y + 1) * w == y * w + w;
  }

  lemma Elsewhere(w: nat, x: int, y: int, u: int, v: int)
    requires 0 <= x < w && 0 <= u < w && 0 <= y && 0 <= v && (x != u || y != v)
    ensures y * w + x != v * w + u
  {
    if y < v {
      assert (y + 1) * w <= v * w;
      assert (y + 1) * w == y * w + w;
    } else if v < y {
      assert (v + 1) * w <= y * w;
      assert (v + 1) * w == v * w + w;
    }
  }

  function Repeat(c: Color, n: nat): (b: seq<Byte>)
    ensures |b| == 4 * n
    ensures forall i | 0 <= i < n :: b[4 * i..4 * i + 4] == c
  {
    if n == 0 then []
    else
      var rest := Repeat(c, n - 1);
      var all := rest + c;
      assert forall i | 0 <= i < n - 1 :: all[4 * i..4 * i + 4] == rest[4 * i..4 * i + 4];
      all
  }

  /** The buffer after one pixel, given by its number, is overwritten. */
  function Overwrite(b: seq<Byte>, n: nat, c: Color): (r: seq<Byte>)
    requires 4 * n + 4 <= |b|
    ensures |r| == |b|
    ensures forall m: nat | 4 * m + 4 <= |b| :: r[4 * m..4 * m + 4] == if m == n then c else b[4 * m..4 * m + 4]
  {
    var r := b[..4 * n] + c + b[4 * n + 4..];
    assert forall m: nat | 4 * m + 4 <= |b| ::
        r[4 * m..4 * m + 4] == if m == n then c else b[4 * m..4 * m + 4] by {
      forall m: nat | 4 * m + 4 <= |b| ensures r[4 * m..4 * m + 4] == if m == n then c else b[4 * m..4 * m + 4] {
        if m < n {
          assert r[4 * m..4 * m + 4] == b[4 * m..4 * m + 4];
        } else if m > n {
          assert r[4 * m..4 * m + 4] == b[4 * m..4 * m + 4];
        }
      }
    }
    r
  }

  /** What a canvas shows, point by point. */
  type Picture = map<Point, Color>

  /** The points that satisfy `on` have the colour, all others are as before. */
  ghost predicate Repainted(before: Picture, after: Picture, color: Color, on: Point -> bool) {
    after.Keys == before.Keys && forall z <- after :: after[z] == if on(z) then color else before[z]
  }

  ghost function Box(left: int, right: int, top: int, bottom: int): Point -> bool {
    (z: Point) => left <= z.x < right && top <= z.y < bottom
  }

  lemma Then(
    a: Picture, b: Picture, c: Picture, color: Color,
    first: Point -> bool, second: Point -> bool, both: Point -> bool)
    requires Repainted(a, b, color, first) && Repainted(b, c, color, second)
    requires forall z :: both(z) <==> first(z) || second(z)
    ensures Repainted(a, c, color, both)
  {
  }

  /** Clipping a rectangle to the canvas first makes no difference. */
  lemma Clip(a: Picture, width: int, height: int, color: Color, b: Picture, x: int, y: int, w: int, h: int, py: int)
    requires forall z <- a :: 0 <= z.x < width && 0 <= z.y < height
    requires var top, bottom := if y < 0 then 0 else y, if y + h < height then y + h else height;
             var left, right := if x < 0 then 0 else x, if x + w < width then x + w else width;
             && top <= py && bottom <= py && (py == top || py <= bottom)
             && Repainted(a, b, color, Box(left, right, top, py))
    ensures Repainted(a, b, color, Box(x, x + w, y, y + h))
  {
  }

  lemma Clipped(a: Picture, b: Picture, color: Color, on: Point -> bool, wider: Point -> bool)
    requires Repainted(a, b, color, on) && forall z <- a :: on(z) <==> wider(z)
    ensures Repainted(a, b, color, wider)
  {
  }

  class Canvas {
    const width: nat
    const height: nat
    var pixels: seq<Byte>

    ghost predicate Valid()
      reads this
    {
      width > 0 && height > 0 && |pixels| == 4 * (width * height)
    }

    predicate Has(x: int, y: int) {
      0 <= x < width && 0 <= y < height
    }

    /** The colour shown at a point of the canvas. */
    function At(x: int, y: int): Color
      reads this
      requires Valid() && Has(x, y)
    {
      Inside(width, height, x, y);
      pixels[4 * (y * width + x)..4 * (y * width + x) + 4]
    }

    ghost function Image(): (m: Picture)
      reads this
      requires Valid()
      ensures forall z: Point :: z in m <==> Has(z.x, z.y)
      ensures forall z <- m :: m[z] == At(z.x, z.y)
    {
      map x: int, y: int | 0 <= x < width && 0 <= y < height :: Point(x, y) := At(x, y)
    }

    constructor (w: int, h: int, color: Color)
      ensures Valid() && width == Side(w) && height == Side(h)
      ensures forall z <- Image() :: Image()[z] == color
    {
      width, height := Side(w), Side(h);
      pixels := Repeat(color, Side(w) * Side(h));
      new;
      forall x, y | Has(x, y) ensures At(x, y) == color {
        Inside(width, height, x, y);
      }
    }

    /** Colours one point; off the canvas it does nothing. */
    method Pixel(x: int, y: int, color: Color)
      requires Valid()
      modifies this
      ensures Valid() && Repainted(old(Image()), Image(), color, Box(x, x + 1, y, y + 1))
    {
      if Has(x, y) {
        Inside(width, height, x, y);
        pixels := Overwrite(pixels, y * width + x, color);
        forall u, v | Has(u, v) ensures At(u, v) == if u == x && v == y then color else old(At(u, v)) {
          Inside(width, height, u, v);
          if u != x || v != y {
            Elsewhere(width, x, y, u, v);
          }
        }
      }
    }

    method Row(left: int, right: int, y: int, color: Color)
      requires Valid()
      modifies this
      ensures Valid() && Repainted(old(Image()), Image(), color, Box(left, right, y, y + 1))
    {
      var px := left;
      while px < right
        invariant Valid() && left <= px && (px == left || px <= right)
        invariant Repainted(old(Image()), Image(), color, Box(left, px, y, y + 1))
      {
        ghost var before := Image();
        Pixel(px, y, color);
        Then(old(Image()), before, Image(), color, Box(left, px, y, y + 1), Box(px, px + 1, y, y + 1),
             Box(left, px + 1, y, y + 1));
        px := px + 1;
      }
      Clipped(old(Image()), Image(), color, Box(left, px, y, y + 1), Box(left, right, y, y + 1));
    }

    /** Fills the part of a rectangle that lies on the canvas, and nothing else. */
    method Rect(x: int, y: int, w: int, h: int, color: Color)
      requires Valid()
      modifies this
      ensures Valid()
      ensures Repainted(old(Image()), Image(), color, Box(x, x + w, y, y + h))
    {
      var top, bottom := if y < 0 then 0 else y, if y + h < height then y + h else height;
      var left, right := if x < 0 then 0 else x, if x + w < width then x + w else width;
      var py := top;
      while py < bottom
        invariant Valid() && top <= py && (py == top || py <= bottom)
        invariant Repainted(old(Image()), Image(), color, Box(left, right, top, py))
      {
        ghost var before := Image();
        Row(left, right, py, color);
        Then(old(Image()), before, Image(), color, Box(left, right, top, py), Box(left, right, py, py + 1),
             Box(left, right, top, py + 1));
        py := py + 1;
      }
      Clip(old(Image()), width, height, color, Image(), x, y, w, h, py);
    }

    /** Draws the rounded line, one pixel per step along the longer axis, and touches
        nothing else. */
    method Line(x0: int, y0: int, x1: int, y1: int, color: Color) returns (drawn: nat)
      requires Valid()
      modifies this
      ensures Valid() && drawn == Steps(Point(x0, y0), Point(x1, y1)) + 1
      ensures Repainted(old(Image()), Image(), color, OnLine(Point(x0, y0), Point(x1, y1), drawn))
    {
      var x, y := x0, y0;
      var dx: int, sx := Abs(x1 - x0), if x0 < x1 then 1 else -1;
      var dy: int, sy := -1 * Abs(y1 - y0), if y0 < y1 then 1 else -1;
      var err := dx + dy;
      ghost var p, q := Point(x0, y0), Point(x1, y1);
      ghost var a, b := Abs(x1 - x0), Abs(y1 - y0);
      assert dx == a && dy + b == 0;
      drawn := 0;
      LineStarts(p, q);
      while true
        invariant Valid() && drawn <= Steps(p, q)
        invariant Point(x, y) == PointAt(p, q, drawn) && err == ErrorAt(p, q, drawn)
        invariant Repainted(old(Image()), Image(), color, OnLine(p, q, drawn))
        decreases Steps(p, q) - drawn
      {
        ghost var before := Image();
        Pixel(x, y, color);
        DrawnMore(p, q, drawn);
        Then(old(Image()), before, Image(), color, OnLine(p, q, drawn), Box(x, x + 1, y, y + 1),
             OnLine(p, q, drawn + 1));
        LineEnds(p, q, drawn);
        if x == x1 && y == y1 {
          drawn := drawn + 1;
          break;
        }
        LineStep(p, q, drawn);
        drawn := drawn + 1;
        var twice := 2 * err;
        assert twice >= dy <==> twice + b >= 0;
        if twice >= dy {
          err := err + dy;
          x := x + sx;
        }
        if twice <= dx {
          err := err + dx;
          y := y + sy;
        }
      }
    }
  }

  function ErrorAt(p: Point, q: Point, k: nat): int {
    Error(Abs(q.x - p.x), Abs(q.y - p.y), k)
  }

  lemma LineStarts(p: Point, q: Point)
    ensures PointAt(p, q, 0) == p && ErrorAt(p, q, 0) == Abs(q.x - p.x) - Abs(q.y - p.y)
  {
    WalkStays(Abs(q.x - p.x), Abs(q.y - p.y), 0);
  }

  lemma LineEnds(p: Point, q: Point, k: nat)
    requires k <= Steps(p, q)
    ensures PointAt(p, q, k) == q <==> k == Steps(p, q)
  {
    LineShape(p, q, Steps(p, q));
  }

  lemma LineStep(p: Point, q: Point, k: nat)
    requires k < Steps(p, q)
    ensures var a, b, e := Abs(q.x - p.x), Abs(q.y - p.y), ErrorAt(p, q, k);
            var right, down := 2 * e + b >= 0, 2 * e <= a;
            var z := PointAt(p, q, k);
            && PointAt(p, q, k + 1) == Point(if !right then z.x else if p.x < q.x then z.x + 1 else z.x - 1,
                                             if !down then z.y else if p.y < q.y then z.y + 1 else z.y - 1)
            && ErrorAt(p, q, k + 1) == e - (if right then b else 0) + (if down then a else 0)
  {
    StepIsRounding(Abs(q.x - p.x), Abs(q.y - p.y), k);
  }

  /** One of the first `n` points of the line. */
  ghost predicate Drawn(p: Point, q: Point, n: nat, z: Point) {
    exists k: nat | k < n :: PointAt(p, q, k) == z
  }

  ghost function OnLine(p: Point, q: Point, n: nat): Point -> bool {
    z => Drawn(p, q, n, z)
  }

  lemma DrawnMore(p: Point, q: Point, n: nat)
    ensures forall z :: Drawn(p, q, n + 1, z) <==> Drawn(p, q, n, z) || z == PointAt(p, q, n)
  {
    forall z ensures Drawn(p, q, n + 1, z) <==> Drawn(p, q, n, z) || z == PointAt(p, q, n) {
      if Drawn(p, q, n + 1, z) {
        var k: nat :| k < n + 1 && PointAt(p, q, k) == z;
        assert k < n || k == n;
      }
    }
  }
}
