/** The pixel buffers of the renderer: span fills on a four times finer grid, then averaging. */
module Renderer {
  import opened Basics
  import opened Raster

  /** Pixel `p` of a buffer of four bytes a pixel. */
  function At(pixels: array<Byte>, p: nat): Pixel
    requires 4 * p + 4 <= pixels.Length
    reads pixels
  {
    Pixel(pixels[4 * p], pixels[4 * p + 1], pixels[4 * p + 2], pixels[4 * p + 3])
  }

  // ------------------------------------------------ index arithmetic

  lemma Product(a: nat, b: nat, c: nat)
    requires a <= b
    ensures a * c <= b * c
  {
  }

  lemma Quotient(width: nat, row: nat, column: nat)
    requires column < width
    ensures (row * width + column) / width == row && (row * width + column) % width == column
  {
    var p := row * width + column;
    var q, r := p / width, p % width;
    assert p == q * width + r;
    assert (q + 1) * width == q * width + width && (row + 1) * width == row * width + width;
    if q < row { Product(q + 1, row, width); assert false; }
    if q > row { Product(row + 1, q, width); assert false; }
  }

  lemma PixelInside(width: nat, row: nat, column: nat)
    requires row < width && column < width
    ensures row * width + column < width * width
  {
    Product(row + 1, width, width);
    assert (row + 1) * width == row * width + width;
  }

  lemma RowInside(width: nat, p: nat)
    requires p < width * width
    ensures width > 0 && p / width < width && p % width < width && p == (p / width) * width + p % width
  {
    var q := p / width;
    assert p == q * width + p % width;
    if q >= width { Product(width, q, width); assert false; }
  }

  lemma SpanOfRow(width: nat, p: nat, row: nat, from: nat, to: nat)
    requires p < width * width && from <= to <= width
    ensures row * width + from <= p < row * width + to <==> width > 0 && p / width == row && from <= p % width < to
  {
    RowInside(width, p);
    if row * width + from <= p < row * width + to { Quotient(width, row, p - row * width); }
  }

  // ------------------------------------------------ filling

  /** Writes the four bytes of one pixel. */
  method SetPixel(pixels: array<Byte>, k: nat, value: Pixel)
    requires 4 * k + 4 <= pixels.Length
    modifies pixels
    ensures forall p: nat | 4 * p + 4 <= pixels.Length ::
              At(pixels, p) == (if p == k then value else old(At(pixels, p)))
  {
    pixels[4 * k], pixels[4 * k + 1], pixels[4 * k + 2], pixels[4 * k + 3] :=
        value.red, value.green, value.blue, value.alpha;
    forall p: nat | 4 * p + 4 <= pixels.Length
      ensures At(pixels, p) == (if p == k then value else old(At(pixels, p)))
    {
      if p != k { assert pixels[4 * p] == old(pixels[4 * p]) && pixels[4 * p + 1] == old(pixels[4 * p + 1]); }
    }
  }

  /** Writes one ink over a run of pixels. */
  method FillSpan(pixels: array<Byte>, from: nat, to: nat, ink: Ink)
    requires from <= to && 4 * to <= pixels.Length
    modifies pixels
    ensures forall p: nat | 4 * p + 4 <= pixels.Length ::
              At(pixels, p) == (if from <= p < to then Opaque(ink) else old(At(pixels, p)))
  {
    for k := from to to
      invariant forall p: nat | 4 * p + 4 <= pixels.Length ::
                  At(pixels, p) == (if from <= p < k then Opaque(ink) else old(At(pixels, p)))
    {
      SetPixel(pixels, k, Opaque(ink));
    }
  }

  /** Fills the clipped spans of one row: exactly the pixels whose centre is in a span. */
  method FillRow(pixels: array<Byte>, width: nat, row: nat, spans: seq<Span>, ink: Ink)
    requires pixels.Length == 4 * (width * width) && row < width
    modifies pixels
    ensures forall p: nat | p < width * width :: At(pixels, p) ==
              (if p / width == row && InSpans(spans, Centre(p % width)) then Opaque(ink) else old(At(pixels, p)))
  {
    for i := 0 to |spans|
      invariant forall p: nat | p < width * width :: At(pixels, p) ==
                  (if p / width == row && InSpans(spans[..i], Centre(p % width)) then Opaque(ink)
                      else old(At(pixels, p)))
    {
      var start := Max(0, Ceil(spans[i].left - 0.5));
      var end := Min(width, Ceil(spans[i].right - 0.5));
      ghost var before := seq(width * width, p requires 0 <= p < width * width reads pixels => At(pixels, p));
      if end > start {
        PixelInside(width, row, end - 1);
        FillSpan(pixels, row * width + start, row * width + end, ink);
      }
      forall p: nat | p < width * width
        ensures At(pixels, p)
                == (if p / width == row && InSpan(spans[i], Centre(p % width)) then Opaque(ink) else before[p])
        ensures InSpans(spans[..i + 1], Centre(p % width))
             == (InSpans(spans[..i], Centre(p % width)) || InSpan(spans[i], Centre(p % width)))
      {
        RowInside(width, p);
        ClippedRange(spans[i].left, spans[i].right, width, p % width);
        if end > start { SpanOfRow(width, p, row, start, end); }
        OneMoreSpan(spans, i, Centre(p % width));
      }
    }
    assert spans[..|spans|] == spans;
  }

  lemma OneMoreSpan(spans: seq<Span>, i: nat, x: real)
    requires i < |spans|
    ensures InSpans(spans[..i + 1], x) <==> InSpans(spans[..i], x) || InSpan(spans[i], x)
  {
    if InSpans(spans[..i], x) {
      var k :| 0 <= k < i && InSpan(spans[..i][k], x);
      assert spans[..i + 1][k] == spans[..i][k];
    }
    if InSpan(spans[i], x) { assert spans[..i + 1][i] == spans[i]; }
    if InSpans(spans[..i + 1], x) {
      var k :| 0 <= k < i + 1 && InSpan(spans[..i + 1][k], x);
      if k < i { assert spans[..i][k] == spans[..i + 1][k]; }
    }
  }

  /** The cuts of one polygon row, edge by edge. */
  method RowCuts(points: seq<Point>, y: real) returns (cuts: seq<real>)
    ensures cuts == Cuts(points, |points|, y)
  {
    cuts := [];
    for i := 0 to |points|
      invariant cuts == Cuts(points, i, y)
    {
      var a, b := points[i], Next(points, i);
      if Crosses(a, b, y) { cuts := cuts + [Cut(a, b, y)]; }
    }
  }

  /** The spans of one row of a shape cover exactly what the shape covers there. */
  method RowSpans(shape: Shape, y: real, root: real -> real) returns (spans: seq<Span>)
    requires IsRoot(root) && Drawable(shape) && YMin(shape) <= y < YMax(shape)
    ensures forall x: real :: InSpans(spans, x) <==> Covers(shape, x, y)
  {
    match shape {
      case Circle(c, r, _) =>
        var reach := root(Depth(shape, y));
        assert reach * reach == Square(reach);
        spans := [Span(c.x - reach, c.x + reach)];
        forall x: real ensures InSpans(spans, x) <==> Covers(shape, x, y) {
          DiscSpan(shape, reach, x, y);
          assert InSpans(spans, x) <==> InSpan(spans[0], x);
        }
      case Polygon(points, _) =>
        var cuts := RowCuts(points, y);
        CrossingsPairUp(points, y);
        spans := Pairs(Sort(cuts));
        forall x: real ensures InSpans(spans, x) <==> Covers(shape, x, y) { PolygonSpans(points, x, y); }
    }
  }

  /** One visited row of a shape. */
  method FillShapeRow(pixels: array<Byte>, width: nat, row: nat, shape: Shape, root: real -> real)
    requires pixels.Length == 4 * (width * width) && row < width && IsRoot(root)
    requires Drawable(shape) && YMin(shape) <= Centre(row) < YMax(shape)
    modifies pixels
    ensures forall p: nat | p < width * width :: At(pixels, p) ==
              (if p / width == row && Covers(shape, Centre(p % width), Centre(row)) then Opaque(InkOf(shape.colour))
                  else old(At(pixels, p)))
  {
    hide Covers, InSpans, Centre, Drawable, YMin, YMax, IsRoot;
    var spans := RowSpans(shape, Centre(row), root);
    FillRow(pixels, width, row, spans, InkOf(shape.colour));
  }

  /** One shape painted over the buffer: every sample it covers takes its ink, every other sample keeps its value. */
  method FillShape(pixels: array<Byte>, width: nat, shape: Shape, root: real -> real)
    requires pixels.Length == 4 * (width * width) && IsRoot(root) && Drawable(shape)
    modifies pixels
    ensures forall p: nat | p < width * width :: At(pixels, p) ==
              (if Covers(shape, Centre(p % width), Centre(p / width)) then Opaque(InkOf(shape.colour))
                  else old(At(pixels, p)))
  {
    hide Covers, YMin, YMax, Centre, IsRoot, Ceil, Drawable;
    var row := Max(0, Ceil(YMin(shape) - 0.5));
    var end := Min(width, Ceil(YMax(shape) - 0.5));
    ghost var first := row;
    while row < end
      invariant first <= row && (row <= end || row == first)
      invariant forall p: nat | p < width * width :: At(pixels, p) ==
                  (if RowCovers(shape, width, first, row, p) then Opaque(InkOf(shape.colour)) else old(At(pixels, p)))
    {
      ClippedRange(YMin(shape), YMax(shape), width, row);
      FillShapeRow(pixels, width, row, shape, root);
      row := row + 1;
    }
    forall p: nat | p < width * width
      ensures RowCovers(shape, width, first, row, p) <==> Covers(shape, Centre(p % width), Centre(p / width))
    {
      RowsCoverAll(shape, width, first, row, p);
    }
  }

  /** A sample in the rows from `first` up to `row` that the shape covers. */
  ghost predicate RowCovers(shape: Shape, width: nat, first: int, row: int, p: nat)
    requires p < width * width
  {
    RowInside(width, p);
    first <= p / width < row && Covers(shape, Centre(p % width), Centre(p / width))
  }

  lemma RowsCoverAll(shape: Shape, width: nat, first: int, row: int, p: nat)
    requires p < width * width && Drawable(shape)
    requires first == Max(0, Ceil(YMin(shape) - 0.5)) && first <= row && row >= Min(width, Ceil(YMax(shape) - 0.5))
    ensures RowCovers(shape, width, first, row, p) <==> Covers(shape, Centre(p % width), Centre(p / width))
  {
    hide Covers, YMin, YMax, Ceil, Centre, Drawable;
    RowInside(width, p);
    RowIsVisited(shape, width, first, row, p / width, Centre(p % width));
  }

  lemma RowIsVisited(shape: Shape, width: nat, first: int, row: int, q: nat, x: real)
    requires q < width && Drawable(shape)
    requires first == Max(0, Ceil(YMin(shape) - 0.5)) && row >= Min(width, Ceil(YMax(shape) - 0.5))
    ensures !(first <= q < row) ==> !Covers(shape, x, Centre(q))
  {
    hide Covers, YMin, YMax, Ceil, Centre, Drawable;
    ClippedRange(YMin(shape), YMax(shape), width, q);
    if !(first <= q < row) { NothingOutside(shape, x, Centre(q)); }
  }

  /** The buffer holds what the painter's rule says. */
  ghost predicate Painted(pixels: array<Byte>, width: nat, shapes: seq<Shape>, scale: real)
    requires pixels.Length == 4 * (width * width)
    reads pixels
  {
    forall p: nat | p < width * width :: At(pixels, p) == PaintAt(shapes, scale, p / width, p % width)
  }

  /** Paints every shape in order; None when a polygon has no points. */
  method PaintAll(width: nat, scale: real, shapes: seq<Shape>, root: real -> real) returns (r: Option<array<Byte>>)
    requires IsRoot(root)
    ensures r.None? <==> exists s | s in shapes :: !ShapeOk(s)
    ensures r.Some? ==> fresh(r.value) && r.value.Length == 4 * (width * width)
    ensures r.Some? ==> Painted(r.value, width, shapes, scale)
  {
    var pixels := new Byte[4 * (width * width)](_ => 0);
    for i := 0 to |shapes|
      invariant forall k | 0 <= k < i :: ShapeOk(shapes[k])
      invariant Painted(pixels, width, shapes[..i], scale)
    {
      var shape := Scaled(shapes[i], scale);
      if !ColourOk(shape.colour) || (shape.Polygon? && shape.points == []) {
        assert shapes[i] in shapes && !ShapeOk(shapes[i]);
        return None;
      }
      assert shapes[..i + 1][..i] == shapes[..i];
      FillShape(pixels, width, shape, root);
    }
    assert shapes[..|shapes|] == shapes;
    return Some(pixels);
  }

  // ------------------------------------------------ averaging

  /** Sums over samples, colours weighted by alpha. */
  datatype Sum = Sum(red: nat, green: nat, blue: nat, alpha: nat)

  function Add(s: Sum, p: Pixel): Sum {
    Sum(s.red + p.red * p.alpha, s.green + p.green * p.alpha, s.blue + p.blue * p.alpha, s.alpha + p.alpha)
  }

  function Total(block: seq<Pixel>): Sum {
    if block == [] then Sum(0, 0, 0, 0) else Add(Total(block[..|block| - 1]), block[|block| - 1])
  }

  /** No weighted sum exceeds the largest channel value times the weight. */
  predicate Bounded(s: Sum, samples: nat) {
    s.red <= 255 * s.alpha && s.green <= 255 * s.alpha && s.blue <= 255 * s.alpha && s.alpha <= 255 * samples
  }

  lemma Weighted(value: Byte, weight: Byte)
    ensures 0 <= value * weight <= 255 * weight
  {
    Product(value, 255, weight);
  }

  lemma {:induction false} TotalBounded(block: seq<Pixel>)
    ensures Bounded(Total(block), |block|)
  {
    if block != [] {
      var last := block[|block| - 1];
      TotalBounded(block[..|block| - 1]);
      Weighted(last.red, last.alpha);
      Weighted(last.green, last.alpha);
      Weighted(last.blue, last.alpha);
    }
  }

  /** The nearest integer to `n / d`, an exact half going to the even one. */
  function Round(n: nat, d: nat): (r: nat)
    requires d > 0
    ensures 2 * n - d <= 2 * (r * d) <= 2 * n + d
  {
    var q, rest := n / d, n % d;
    assert n == q * d + rest && (q + 1) * d == q * d + d;
    if 2 * rest < d || (2 * rest == d && q % 2 == 0) then q else q + 1
  }

  lemma RoundInRange(n: nat, d: nat)
    requires d > 0 && n <= 255 * d
    ensures Round(n, d) <= 255
  {
    var r := Round(n, d);
    if r >= 256 { Product(256, r, d); assert false; }
  }

  function Resolve(s: Sum): Pixel
    requires Bounded(s, SUPERSAMPLE * SUPERSAMPLE)
  {
    if s.alpha == 0 then CLEAR
    else
      RoundInRange(s.red, s.alpha);
      RoundInRange(s.green, s.alpha);
      RoundInRange(s.blue, s.alpha);
      RoundInRange(s.alpha, 16);
      Pixel(Round(s.red, s.alpha), Round(s.green, s.alpha), Round(s.blue, s.alpha), Round(s.alpha, 16))
  }

  function Average(block: seq<Pixel>): Pixel
    requires |block| == 16
  {
    TotalBounded(block);
    Resolve(Total(block))
  }

  /** The sixteen samples of output pixel `(row, column)`, by the painter's rule. */
  function Block(shapes: seq<Shape>, scale: real, row: nat, column: nat): (b: seq<Pixel>)
    ensures |b| == 16
  {
    seq(16, i requires 0 <= i < 16 => PaintAt(shapes, scale, 4 * row + i / 4, 4 * column + i % 4))
  }

  /** What the renderer is for: each pixel is the average of the painter's rule over its sixteen samples. */
  function Ideal(shapes: seq<Shape>, size: nat, p: nat): Pixel
    requires p < size * size
  {
    RowInside(size, p);
    Average(Block(shapes, size as real / 16.0, p / size, p % size))
  }

  /** The four samples of one sample row, neighbours in the buffer. */
  function SampleRow(pixels: array<Byte>, offset: nat): (samples: seq<Pixel>)
    requires 4 * offset + 16 <= pixels.Length
    reads pixels
    ensures |samples| == 4
  {
    [At(pixels, offset), At(pixels, offset + 1), At(pixels, offset + 2), At(pixels, offset + 3)]
  }

  /** Adds the four samples of one sample row. */
  method AddSamples(pixels: array<Byte>, offset: nat, ghost before: seq<Pixel>, sum0: Sum) returns (sum: Sum)
    requires 4 * offset + 16 <= pixels.Length && sum0 == Total(before)
    ensures sum == Total(before + SampleRow(pixels, offset))
  {
    hide Total;
    ghost var samples := SampleRow(pixels, offset);
    sum := sum0;
    assert before + samples[..0] == before;
    for sx := 0 to SUPERSAMPLE
      invariant sum == Total(before + samples[..sx])
    {
      assert At(pixels, offset + sx) == samples[sx];
      assert before + samples[..sx + 1] == (before + samples[..sx]) + [samples[sx]];
      NextSample(before + samples[..sx], samples[sx]);
      sum := Add(sum, At(pixels, offset + sx));
    }
    assert samples[..4] == samples;
  }

  lemma NextSample(block: seq<Pixel>, sample: Pixel)
    ensures Total(block + [sample]) == Add(Total(block), sample)
  {
    assert (block + [sample])[..|block|] == block;
  }

  lemma SampleAt(pixels: array<Byte>, size: nat, row: nat, column: nat, sy: nat, sx: nat, shapes: seq<Shape>,
        scale: real)
    requires row < size && column < size && sy < 4 && sx < 4 && pixels.Length == 4 * ((4 * size) * (4 * size))
    requires Painted(pixels, 4 * size, shapes, scale)
    ensures (4 * row + sy) * (4 * size) + (4 * column + sx) < (4 * size) * (4 * size)
    ensures At(pixels, (4 * row + sy) * (4 * size) + (4 * column + sx))
            == PaintAt(shapes, scale, 4 * row + sy, 4 * column + sx)
  {
    hide PaintAt;
    var width := 4 * size;
    PixelInside(width, 4 * row + sy, 4 * column + sx);
    Quotient(width, 4 * row + sy, 4 * column + sx);
  }

  lemma SamplesAt(pixels: array<Byte>, size: nat, row: nat, column: nat, sy: nat, offset: nat, shapes: seq<Shape>,
        scale: real)
    requires row < size && column < size && sy < 4 && pixels.Length == 4 * ((4 * size) * (4 * size))
    requires Painted(pixels, 4 * size, shapes, scale) && offset == (4 * row + sy) * (4 * size) + 4 * column
    ensures 4 * offset + 16 <= pixels.Length
    ensures SampleRow(pixels, offset) == Block(shapes, scale, row, column)[4 * sy..4 * sy + 4]
  {
    hide PaintAt;
    SampleAt(pixels, size, row, column, sy, 0, shapes, scale);
    SampleAt(pixels, size, row, column, sy, 1, shapes, scale);
    SampleAt(pixels, size, row, column, sy, 2, shapes, scale);
    SampleAt(pixels, size, row, column, sy, 3, shapes, scale);
    hide Painted;
    BlockRow(shapes, scale, row, column, sy);
  }

  lemma BlockRow(shapes: seq<Shape>, scale: real, row: nat, column: nat, sy: nat)
    requires sy < 4
    ensures Block(shapes, scale, row, column)[4 * sy..4 * sy + 4]
         == [PaintAt(shapes, scale, 4 * row + sy, 4 * column), PaintAt(shapes, scale, 4 * row + sy, 4 * column + 1),
             PaintAt(shapes, scale, 4 * row + sy, 4 * column + 2), PaintAt(shapes, scale, 4 * row + sy, 4 * column + 3)]
  {
    hide PaintAt;
    if sy == 0 {} else if sy == 1 {} else if sy == 2 {} else {}
  }

  method AveragePixel(pixels: array<Byte>, size: nat, row: nat, column: nat, ghost shapes: seq<Shape>,
        ghost scale: real)
    returns (value: Pixel)
    requires row < size && column < size && pixels.Length == 4 * ((4 * size) * (4 * size))
    requires Painted(pixels, 4 * size, shapes, scale)
    ensures value == Average(Block(shapes, scale, row, column))
  {
    hide Painted, Total, Block, Bounded;
    var width := SUPERSAMPLE * size;
    ghost var block := Block(shapes, scale, row, column);
    var sum := Sum(0, 0, 0, 0);
    EmptyTotal(block);
    for sy := 0 to SUPERSAMPLE
      invariant sum == Total(block[..4 * sy])
    {
      var offset := (SUPERSAMPLE * row + sy) * width + SUPERSAMPLE * column;
      SamplesAt(pixels, size, row, column, sy, offset, shapes, scale);
      sum := AddSamples(pixels, offset, block[..4 * sy], sum);
      assert block[..4 * sy + 4] == block[..4 * sy] + block[4 * sy..4 * sy + 4];
    }
    assert block[..16] == block;
    TotalBounded(block);
    value := Resolve(sum);
  }

  lemma EmptyTotal(block: seq<Pixel>)
    ensures Total(block[..0]) == Sum(0, 0, 0, 0)
  {
  }

  /** Averages every block of samples into an output buffer. */
  method Downsample(pixels: array<Byte>, size: nat, ghost shapes: seq<Shape>) returns (result: array<Byte>)
    requires pixels.Length == 4 * ((4 * size) * (4 * size)) && Painted(pixels, 4 * size, shapes, size as real / 16.0)
    ensures fresh(result) && result.Length == 4 * (size * size)
    ensures forall p: nat | p < size * size :: At(result, p) == Ideal(shapes, size, p)
  {
    hide Painted, Ideal;
    result := new Byte[4 * (size * size)];
    for y := 0 to size
      invariant Painted(pixels, 4 * size, shapes, size as real / 16.0)
      invariant forall p: nat | p < size * size && p < y * size :: At(result, p) == Ideal(shapes, size, p)
    {
      for x := 0 to size
        invariant Painted(pixels, 4 * size, shapes, size as real / 16.0)
        invariant forall p: nat | p < size * size && p < y * size + x :: At(result, p) == Ideal(shapes, size, p)
      {
        var value := AveragePixel(pixels, size, y, x, shapes, size as real / 16.0);
        PixelInside(size, y, x);
        IdealAt(shapes, size, y, x);
        SetPixel(result, y * size + x, value);
      }
      NextRow(y, size);
    }
  }

  lemma NextRow(y: nat, size: nat)
    ensures (y + 1) * size == y * size + size
  {
  }

  lemma IdealAt(shapes: seq<Shape>, size: nat, row: nat, column: nat)
    requires row < size && column < size
    ensures row * size + column < size * size
    ensures Ideal(shapes, size, row * size + column) == Average(Block(shapes, size as real / 16.0, row, column))
  {
    hide Average, Block;
    PixelInside(size, row, column);
    Quotient(size, row, column);
  }

  /** The whole renderer: the buffers refine the pointwise rule at every pixel. */
  method Rgba(size: nat, shapes: seq<Shape>, root: real -> real) returns (r: Option<seq<Byte>>)
    requires IsRoot(root)
    ensures r.None? <==> exists s | s in shapes :: !ShapeOk(s)
    ensures r.Some? ==> |r.value| == 4 * (size * size)
    ensures r.Some? ==> forall p: nat | p < size * size :: PixelOf(r.value, p) == Ideal(shapes, size, p)
  {
    hide Painted, Ideal;
    var width := SUPERSAMPLE * size;
    var scale := width as real / 64.0;
    assert scale == size as real / 16.0;
    var painted := PaintAll(width, scale, shapes, root);
    if painted.None? { return None; }
    var result := Downsample(painted.value, size, shapes);
    forall p: nat | p < size * size ensures PixelOf(result[..], p) == Ideal(shapes, size, p) {
      assert At(result, p) == Ideal(shapes, size, p);
    }
    return Some(result[..]);
  }

  /** Pixel `p` of finished bytes. */
  function PixelOf(bytes: seq<Byte>, p: nat): Pixel
    requires 4 * p + 4 <= |bytes|
  {
    Pixel(bytes[4 * p], bytes[4 * p + 1], bytes[4 * p + 2], bytes[4 * p + 3])
  }

  // ------------------------------------------------ what the averages mean

  /** Samples of one ink and uncovered samples. */
  predicate OneInk(block: seq<Pixel>, ink: Ink) {
    forall i | 0 <= i < |block| :: block[i] == Opaque(ink) || block[i] == CLEAR
  }

  /** How many samples are covered. */
  function Covered(block: seq<Pixel>): (n: nat)
    ensures n <= |block|
  {
    if block == [] then 0 else Covered(block[..|block| - 1]) + if block[|block| - 1] == CLEAR then 0 else 1
  }

  lemma {:induction false} CoveredTotal(block: seq<Pixel>, ink: Ink)
    requires OneInk(block, ink)
    ensures var k := 255 * Covered(block); Total(block) == Sum(ink.red * k, ink.green * k, ink.blue * k, k)
  {
    if block != [] {
      var front, last := block[..|block| - 1], block[|block| - 1];
      CoveredTotal(front, ink);
      var k := Covered(front);
      Distribute(ink.red, k);
      Distribute(ink.green, k);
      Distribute(ink.blue, k);
    }
  }

  lemma Distribute(value: nat, k: nat)
    ensures value * (255 * (k + 1)) == value * (255 * k) + value * 255
  {
  }

  /** Anti-aliasing never tints: on the edge of one ink the colour is that ink and only the opacity is a fraction. */
  lemma EdgeKeepsInk(block: seq<Pixel>, ink: Ink)
    requires |block| == 16 && OneInk(block, ink)
    ensures
      var average := Average(block);
      if Covered(block) == 0 then average == CLEAR
      else average.(alpha := 255) == Opaque(ink) && average.alpha == Round(255 * Covered(block), 16)
  {
    CoveredTotal(block, ink);
    TotalBounded(block);
    var k := 255 * Covered(block);
    if k > 0 {
      Exact(ink.red, k);
      Exact(ink.green, k);
      Exact(ink.blue, k);
    }
  }

  lemma Exact(n: nat, d: nat)
    requires d > 0
    ensures Round(n * d, d) == n
  {
    Quotient(d, n, 0);
  }
}
