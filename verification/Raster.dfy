/** The scan-line renderer of the brand mark, against the pointwise rule of what each shape covers. */
module Raster {
  import opened Basics

  type Byte = x: int | 0 <= x < 256

  datatype Ink = Ink(red: Byte, green: Byte, blue: Byte)
  datatype Pixel = Pixel(red: Byte, green: Byte, blue: Byte, alpha: Byte)
  datatype Point = Point(x: real, y: real)
  datatype Shape = Circle(centre: Point, radius: real, colour: string) | Polygon(points: seq<Point>, colour: string)

  const SUPERSAMPLE := 4
  const CLEAR := Pixel(0, 0, 0, 0)

  /** The value of a hexadecimal digit of either case; None for any other character. */
  function HexDigit(c: char): Option<int> {
    if '0' <= c <= '9' then Some(c as int - '0' as int)
    else if 'a' <= c <= 'f' then Some(c as int - 'a' as int + 10)
    else if 'A' <= c <= 'F' then Some(c as int - 'A' as int + 10)
    else None
  }

  /** A solid colour: a number sign and six hexadecimal digits. */
  predicate ColourOk(s: string) { |s| == 7 && s[0] == '#' && forall i | 1 <= i < 7 :: HexDigit(s[i]).Some? }

  /** The byte at `i`. */
  function HexByte(s: string, i: nat): (b: Byte)
    requires ColourOk(s) && 1 <= i <= 5
  {
    16 * HexDigit(s[i]).value + HexDigit(s[i + 1]).value
  }

  /** The ink of a solid colour. */
  function InkOf(colour: string): Ink {
    if ColourOk(colour) then Ink(HexByte(colour, 1), HexByte(colour, 3), HexByte(colour, 5)) else Ink(0, 0, 0)
  }

  function Opaque(ink: Ink): Pixel { Pixel(ink.red, ink.green, ink.blue, 255) }

  /** The centre of a row or column. */
  function Centre(k: int): real { k as real + 0.5 }

  function Ceil(x: real): int { -(-x).Floor }

  // ------------------------------------------------ the pointwise rule

  function Next(points: seq<Point>, i: nat): Point
    requires i < |points|
  {
    if i + 1 == |points| then points[0] else points[i + 1]
  }

  predicate Crosses(a: Point, b: Point, y: real) { a.y <= y < b.y || b.y <= y < a.y }

  function Cut(a: Point, b: Point, y: real): real
    requires Crosses(a, b, y)
  {
    a.x + (y - a.y) * (b.x - a.x) / (b.y - a.y)
  }

  predicate CutsLeft(points: seq<Point>, i: nat, x: real, y: real)
    requires i < |points|
  {
    Crosses(points[i], Next(points, i), y) && Cut(points[i], Next(points, i), y) <= x
  }

  /** How many of the first `n` edges the row at `y` crosses at or left of `x`. */
  function CrossingsLeft(points: seq<Point>, n: nat, x: real, y: real): nat
    requires n <= |points|
  {
    if n == 0 then 0 else CrossingsLeft(points, n - 1, x, y) + if CutsLeft(points, n - 1, x, y) then 1 else 0
  }

  /** A point is covered by a disc's interior and left edge, and by a polygon's even-odd interior. */
  predicate Covers(shape: Shape, x: real, y: real) {
    match shape
    case Circle(c, r, _) =>
      var d := (x - c.x) * (x - c.x) + (y - c.y) * (y - c.y);
      r >= 0.0 && (d < r * r || (d == r * r && x < c.x))
    case Polygon(points, _) => CrossingsLeft(points, |points|, x, y) % 2 == 1
  }

  function ScaledPoint(p: Point, scale: real): Point { Point(p.x * scale, p.y * scale) }

  function Scaled(shape: Shape, scale: real): Shape {
    match shape
    case Circle(c, r, colour) => Circle(ScaledPoint(c, scale), r * scale, colour)
    case Polygon(points, colour) =>
      Polygon(seq(|points|, i requires 0 <= i < |points| => ScaledPoint(points[i], scale)), colour)
  }

  /** The painter's rule: the last shape over a sample's centre gives its colour. */
  function PaintAt(shapes: seq<Shape>, scale: real, row: int, column: int): Pixel {
    if shapes == [] then CLEAR
    else
      var top := shapes[|shapes| - 1];
      if Covers(Scaled(top, scale), Centre(column), Centre(row)) then Opaque(InkOf(top.colour))
      else PaintAt(shapes[..|shapes| - 1], scale, row, column)
  }

  // ------------------------------------------------ crossings of a row

  function Cuts(points: seq<Point>, n: nat, y: real): seq<real>
    requires n <= |points|
  {
    if n == 0 then []
    else
      var rest := Cuts(points, n - 1, y);
      var a, b := points[n - 1], Next(points, n - 1);
      if Crosses(a, b, y) then rest + [Cut(a, b, y)] else rest
  }

  function AtMost(s: seq<real>, x: real): nat {
    if s == [] then 0 else AtMost(s[..|s| - 1], x) + if s[|s| - 1] <= x then 1 else 0
  }

  lemma {:induction false} CutsAreCrossings(points: seq<Point>, n: nat, x: real, y: real)
    requires n <= |points|
    ensures AtMost(Cuts(points, n, y), x) == CrossingsLeft(points, n, x, y)
  {
    if n > 0 {
      CutsAreCrossings(points, n - 1, x, y);
      var rest := Cuts(points, n - 1, y);
      var a, b := points[n - 1], Next(points, n - 1);
      if Crosses(a, b, y) {
        assert (rest + [Cut(a, b, y)])[..|rest|] == rest;
      }
    }
  }

  /** Walking along the outline, the parity of the crossings tells on which side of the row a vertex is. */
  lemma {:induction false} CrossingParity(points: seq<Point>, n: nat, y: real)
    requires n < |points|
    ensures |Cuts(points, n, y)| % 2 == if (points[0].y <= y) == (points[n].y <= y) then 0 else 1
  {
    if n > 0 { CrossingParity(points, n - 1, y); }
  }

  /** A closed outline crosses every row an even number of times, so cuts always pair up. */
  lemma CrossingsPairUp(points: seq<Point>, y: real)
    ensures |Cuts(points, |points|, y)| % 2 == 0
  {
    if points != [] { CrossingParity(points, |points| - 1, y); }
  }

  /** A row above or below every vertex has no crossings. */
  lemma {:induction false} NoCrossingsOutside(points: seq<Point>, n: nat, x: real, y: real)
    requires n <= |points|
    requires (forall p | p in points :: y < p.y) || (forall p | p in points :: p.y <= y)
    ensures Cuts(points, n, y) == [] && CrossingsLeft(points, n, x, y) == 0
  {
    if n > 0 {
      NoCrossingsOutside(points, n - 1, x, y);
      assert points[n - 1] in points && Next(points, n - 1) in points;
    }
  }

  predicate Ordered(s: seq<real>) { forall i, j | 0 <= i < j < |s| :: s[i] <= s[j] }

  function Insert(x: real, s: seq<real>): (r: seq<real>)
    requires Ordered(s)
    ensures Ordered(r) && |r| == |s| + 1 && (forall bound | x <= bound && Bounded(s, bound) :: Bounded(r, bound))
  {
    if s == [] || s[|s| - 1] <= x then s + [x]
    else
      assert Bounded(s[..|s| - 1], s[|s| - 1]);
      Insert(x, s[..|s| - 1]) + [s[|s| - 1]]
  }

  predicate Bounded(s: seq<real>, bound: real) { forall i | 0 <= i < |s| :: s[i] <= bound }

  function Sort(s: seq<real>): (r: seq<real>)
    ensures Ordered(r) && |r| == |s|
  {
    if s == [] then [] else Insert(s[|s| - 1], Sort(s[..|s| - 1]))
  }

  lemma {:induction false} InsertCounts(v: real, s: seq<real>, x: real)
    requires Ordered(s)
    ensures AtMost(Insert(v, s), x) == AtMost(s, x) + if v <= x then 1 else 0
  {
    if s == [] || s[|s| - 1] <= v {
      assert (s + [v])[..|s|] == s;
    } else {
      var t := Insert(v, s[..|s| - 1]);
      InsertCounts(v, s[..|s| - 1], x);
      assert (t + [s[|s| - 1]])[..|t|] == t;
    }
  }

  lemma {:induction false} SortCounts(s: seq<real>, x: real)
    ensures AtMost(Sort(s), x) == AtMost(s, x)
  {
    if s != [] {
      SortCounts(s[..|s| - 1], x);
      InsertCounts(s[|s| - 1], Sort(s[..|s| - 1]), x);
    }
  }

  // ------------------------------------------------ spans

  datatype Span = Span(left: real, right: real)

  predicate InSpan(span: Span, x: real) { span.left <= x < span.right }

  predicate InSpans(spans: seq<Span>, x: real) { exists i | 0 <= i < |spans| :: InSpan(spans[i], x) }

  /** Consecutive cuts, paired strictly. */
  function Pairs(s: seq<real>): (spans: seq<Span>)
    requires |s| % 2 == 0
  {
    if s == [] then [] else Pairs(s[..|s| - 2]) + [Span(s[|s| - 2], s[|s| - 1])]
  }

  lemma {:induction false} AllCounted(s: seq<real>, x: real)
    requires forall i | 0 <= i < |s| :: s[i] <= x
    ensures AtMost(s, x) == |s|
  {
    if s != [] {
      AllCounted(s[..|s| - 1], x);
    }
  }

  /** The pairing refines the parity rule. */
  lemma {:induction false} PairsAreOdd(s: seq<real>, x: real)
    requires Ordered(s) && |s| % 2 == 0
    ensures InSpans(Pairs(s), x) <==> AtMost(s, x) % 2 == 1
  {
    if s != [] {
      var n := |s|;
      var front, last := s[..n - 2], Span(s[n - 2], s[n - 1]);
      PairsAreOdd(front, x);
      hide AtMost, InSpans, Ordered;
      LastTwo(s, x);
      if last.left <= x { FrontIsBelow(s, x); }
      PairsSplit(front, last, x);
    }
  }

  lemma FrontIsBelow(s: seq<real>, x: real)
    requires Ordered(s) && |s| >= 2 && s[|s| - 2] <= x
    ensures AtMost(s[..|s| - 2], x) == |s| - 2
  {
    AllCounted(s[..|s| - 2], x);
  }

  lemma LastTwo(s: seq<real>, x: real)
    requires |s| >= 2
    ensures AtMost(s, x)
         == AtMost(s[..|s| - 2], x) + (if s[|s| - 2] <= x then 1 else 0) + (if s[|s| - 1] <= x then 1 else 0)
  {
    var front := s[..|s| - 1];
    assert front[..|front| - 1] == s[..|s| - 2];
  }

  lemma PairsSplit(s: seq<real>, last: Span, x: real)
    requires |s| % 2 == 0
    ensures InSpans(Pairs(s) + [last], x) <==> InSpans(Pairs(s), x) || InSpan(last, x)
  {
    var spans := Pairs(s);
    if InSpans(spans, x) {
      var i :| 0 <= i < |spans| && InSpan(spans[i], x);
      assert (spans + [last])[i] == spans[i];
    }
    if InSpan(last, x) { assert (spans + [last])[|spans|] == last; }
  }

  /** The spans of one polygon row are exactly its even-odd interior. */
  lemma PolygonSpans(points: seq<Point>, x: real, y: real)
    ensures |Cuts(points, |points|, y)| % 2 == 0
    ensures InSpans(Pairs(Sort(Cuts(points, |points|, y))), x) <==> CrossingsLeft(points, |points|, x, y) % 2 == 1
  {
    CrossingsPairUp(points, y);
    var cuts := Cuts(points, |points|, y);
    PairsAreOdd(Sort(cuts), x);
    SortCounts(cuts, x);
    CutsAreCrossings(points, |points|, x, y);
  }

  function Square(x: real): real { x * x }

  /** What the renderer needs of the square root. */
  ghost predicate IsRoot(root: real -> real) { forall d: real | d >= 0.0 :: root(d) >= 0.0 && Square(root(d)) == d }

  function Depth(shape: Shape, y: real): real
    requires shape.Circle?
  {
    var d := shape.radius * shape.radius - (y - shape.centre.y) * (y - shape.centre.y);
    if d > 0.0 then d else 0.0
  }

  lemma Monotone(a: real, b: real, c: real)
    requires a <= b && c >= 0.0
    ensures a * c <= b * c
  {
  }

  lemma SquareOrder(a: real, b: real)
    requires a >= 0.0 && b >= 0.0
    ensures a < b <==> a * a < b * b
  {
    var square, mixed, other := a * a, a * b, b * b;
    assert other - square == (b - a) * (a + b);
    if a < b {
      Positive(b - a, a + b);
    } else {
      Monotone(0.0, a - b, a + b);
      assert square - other == (a - b) * (a + b);
    }
  }

  lemma Positive(a: real, b: real)
    requires a > 0.0 && b > 0.0
    ensures a * b > 0.0
  {
  }

  /** The span of one disc row is exactly the disc's row, with its left edge and without its right one. */
  lemma DiscSpan(shape: Shape, reach: real, x: real, y: real)
    requires shape.Circle? && shape.radius >= 0.0 && reach >= 0.0 && reach * reach == Depth(shape, y)
    ensures InSpan(Span(shape.centre.x - reach, shape.centre.x + reach), x) <==> Covers(shape, x, y)
  {
    var r, dx, dy := shape.radius, x - shape.centre.x, y - shape.centre.y;
    var rr, xx, yy := r * r, dx * dx, dy * dy;
    var size := if dx >= 0.0 then dx else -dx;
    assert size * size == xx;
    SquareOrder(0.0, size);
    SquareOrder(size, reach);
    SquareOrder(reach, size);
    assert reach * reach == if rr - yy > 0.0 then rr - yy else 0.0;
    assert Covers(shape, x, y) <==> xx + yy < rr || (xx + yy == rr && dx < 0.0);
  }

  // ------------------------------------------------ rows and columns as integers

  lemma CeilBound(x: real, k: int)
    ensures Ceil(x) <= k <==> x <= k as real
  {
  }

  function Max(a: int, b: int): int { if a < b then b else a }

  function Min(a: int, b: int): int { if a < b then a else b }

  /** The clipped integer range of a real interval holds exactly the centres inside it. */
  lemma ClippedRange(low: real, high: real, width: nat, k: int)
    ensures Max(0, Ceil(low - 0.5)) <= k < Min(width, Ceil(high - 0.5)) <==> 0 <= k < width && low <= Centre(k) < high
  {
    CeilBound(low - 0.5, k);
    CeilBound(high - 0.5, k);
  }

  function Top(points: seq<Point>): (y: real)
    requires points != []
    ensures (exists p | p in points :: p.y == y) && forall p | p in points :: y <= p.y
  {
    var last := points[|points| - 1].y;
    if |points| == 1 then last
    else
      var rest := Top(points[..|points| - 1]);
      if rest <= last then rest else last
  }

  function Bottom(points: seq<Point>): (y: real)
    requires points != []
    ensures (exists p | p in points :: p.y == y) && forall p | p in points :: p.y <= y
  {
    var last := points[|points| - 1].y;
    if |points| == 1 then last
    else
      var rest := Bottom(points[..|points| - 1]);
      if rest >= last then rest else last
  }

  predicate Drawable(shape: Shape) { shape.Polygon? ==> shape.points != [] }

  /** What the renderer accepts: a solid colour, and some points in a polygon. */
  predicate ShapeOk(shape: Shape) { ColourOk(shape.colour) && Drawable(shape) }

  function YMin(shape: Shape): real
    requires Drawable(shape)
  {
    if shape.Circle? then shape.centre.y - shape.radius else Top(shape.points)
  }

  function YMax(shape: Shape): real
    requires Drawable(shape)
  {
    if shape.Circle? then shape.centre.y + shape.radius else Bottom(shape.points)
  }

  /** Nothing is covered outside the rows the renderer visits. */
  lemma NothingOutside(shape: Shape, x: real, y: real)
    requires Drawable(shape) && !(YMin(shape) <= y < YMax(shape))
    ensures !Covers(shape, x, y)
  {
    match shape
    case Polygon(points, _) =>
      NoCrossingsOutside(points, |points|, x, y);
    case Circle(c, r, _) =>
      if r >= 0.0 {
        var dx, dy := x - c.x, y - c.y;
        if dy >= 0.0 { SquareOrder(dy, r); } else {
          SquareOrder(-dy, r);
          assert (-dy) * (-dy) == dy * dy;
        }
        SquareOrder(0.0, if dx >= 0.0 then dx else -dx);
        assert (-dx) * (-dx) == dx * dx;
      }
  }
}
