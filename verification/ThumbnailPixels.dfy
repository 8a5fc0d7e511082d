/** The two pixel loops of a thumbnail: the grain laid on the supersampled
    surface and the box filter that brings it down to the delivered size. */
module ThumbnailPixels {
  import opened Protocol

  const WIDTH: nat := 240
  const HEIGHT: nat := 160
  const SUPERSAMPLE: nat := 2
  const PAPER_TEXTURE_TILE_SIZE: nat := 64
  const GRAIN: Byte := 0x8C

  type Byte = b: nat | b < 256

  datatype Rgba = Rgba(red: Byte, green: Byte, blue: Byte, alpha: Byte) {
    predicate Premultiplied() { red <= alpha && green <= alpha && blue <= alpha }
  }

  /** A colour whose channels are already scaled by its alpha. */
  type Pixel = p: Rgba | p.Premultiplied() witness Rgba(0, 0, 0, 0)

  function FromRgba(red: Byte, green: Byte, blue: Byte, alpha: Byte): Option<Pixel> {
    var p := Rgba(red, green, blue, alpha);
    if p.Premultiplied() then Some(p) else None
  }

  datatype Result<T> = Ok(value: T) | Err(message: string)

  class Pixmap {
    const width: nat
    const height: nat
    const pixels: array<Pixel>

    ghost predicate Valid() { width > 0 && pixels.Length == width * height }

    constructor (width: nat, height: nat)
      requires width > 0
      ensures Valid() && this.width == width && this.height == height && fresh(pixels)
      ensures forall i :: 0 <= i < pixels.Length ==> pixels[i] == Rgba(0, 0, 0, 0)
    {
      this.width, this.height := width, height;
      pixels := new Pixel[width * height](_ => Rgba(0, 0, 0, 0));
    }

    method Fill(color: Pixel)
      modifies pixels
      ensures forall i :: 0 <= i < pixels.Length ==> pixels[i] == color
    {
      for i := 0 to pixels.Length
        invariant forall j :: 0 <= j < i ==> pixels[j] == color
      {
        pixels[i] := color;
      }
    }
  }

  const WHITE: Pixel := Rgba(255, 255, 255, 255)

  // ---- The grain ----------------------------------------------------------

  /** The repeating tile of grain alphas, row by row. */
  type Tile = t: seq<Byte> | |t| == 4096 witness seq(4096, _ => 0)

  /** The grain's alpha over delivered pixel (x, y): the tile, repeated. */
  function GrainAlpha(tile: Tile, x: nat, y: nat): Byte {
    tile[y % PAPER_TEXTURE_TILE_SIZE * 64 + x % PAPER_TEXTURE_TILE_SIZE]
  }

  /** The tile lies on the page once every 64 pixels, each way. */
  lemma TileRepeats(tile: Tile, x: nat, y: nat)
    ensures x < 64 && y < 64 ==> GrainAlpha(tile, x, y) == tile[64 * y + x]
    ensures GrainAlpha(tile, x + 64, y) == GrainAlpha(tile, x, y) == GrainAlpha(tile, x, y + 64)
  {
  }

  /** Source-over of the grain's grey at `alpha`, rounded to nearest. */
  function Blend(dst: Byte, alpha: Byte): (mixed: Byte)
    ensures MinByte(dst, GRAIN) <= mixed <= MaxByte(dst, GRAIN)
  {
    BlendBounds(dst, alpha);
    (GRAIN * alpha + dst * (255 - alpha) + 127) / 255
  }

  function MinByte(a: Byte, b: Byte): Byte { if a <= b then a else b }

  function MaxByte(a: Byte, b: Byte): Byte { if a >= b then a else b }

  lemma BlendBounds(dst: Byte, alpha: Byte)
    ensures MinByte(dst, GRAIN) <= (GRAIN * alpha + dst * (255 - alpha) + 127) / 255 <= MaxByte(dst, GRAIN)
  {
    var low, high := MinByte(dst, GRAIN), MaxByte(dst, GRAIN);
    assert low * 255 == low * alpha + low * (255 - alpha);
    assert high * 255 == high * alpha + high * (255 - alpha);
    Monotone(low, GRAIN, alpha);
    Monotone(low, dst, 255 - alpha);
    Monotone(GRAIN, high, alpha);
    Monotone(dst, high, 255 - alpha);
  }

  lemma Monotone(a: nat, b: nat, k: nat)
    requires a <= b
    ensures a * k <= b * k
  {
    assert (b - a) * k >= 0;
  }

  /** A pixel under the grain: untouched where the tile is clear, else opaque. */
  function Grained(p: Pixel, alpha: Byte): Pixel {
    if alpha == 0 then p
    else Rgba(Blend(p.red, alpha), Blend(p.green, alpha), Blend(p.blue, alpha), 255)
  }

  lemma RowAndColumn(x: nat, y: nat, width: nat)
    requires x < width
    ensures (y * width + x) / width == y && (y * width + x) % width == x
  {
    var i := y * width + x;
    assert i == (i / width) * width + i % width;
    if i / width < y {
      Monotone(i / width + 1, y, width);
    } else if i / width > y {
      Monotone(y + 1, i / width, width);
    }
  }

  lemma InBounds(x: nat, y: nat, width: nat, height: nat)
    requires x < width && y < height
    ensures y * width + x < width * height
  {
    Monotone(y + 1, height, width);
  }

  /** The pixel at index `i` of a surface whose delivered pixels are `cell` by
      `cell` blocks, once the grain is laid. */
  function GrainedAt(tile: Tile, p: Pixel, i: nat, width: nat, cell: nat): Pixel
    requires width > 0 && cell > 0
  {
    Grained(p, GrainAlpha(tile, i % width / cell, i / width / cell))
  }

  /** The grain is laid on the first `n` pixels of a surface, in cells of the
      given size. */
  ghost predicate LaidUpTo(tile: Tile, now: seq<Pixel>, before: seq<Pixel>, width: nat, cell: nat, n: nat)
    requires width > 0 && cell > 0
  {
    && |now| == |before|
    && forall i :: 0 <= i < |now| ==> now[i] == if i < n then GrainedAt(tile, before[i], i, width, cell) else before[i]
  }

  method LayOnPixel(pixmap: Pixmap, tile: Tile, x: nat, y: nat, index: nat, ghost before: seq<Pixel>)
    requires pixmap.Valid() && x < pixmap.width && index < pixmap.pixels.Length
    requires index / pixmap.width == y && index % pixmap.width == x
    requires LaidUpTo(tile, pixmap.pixels[..], before, pixmap.width, SUPERSAMPLE, index)
    modifies pixmap.pixels
    ensures LaidUpTo(tile, pixmap.pixels[..], before, pixmap.width, SUPERSAMPLE, index + 1)
  {
    var u, v := x / SUPERSAMPLE % PAPER_TEXTURE_TILE_SIZE, y / SUPERSAMPLE % PAPER_TEXTURE_TILE_SIZE;
    var alpha := tile[v * 64 + u];
    if alpha != 0 {
      var base := pixmap.pixels[index];
      pixmap.pixels[index] := Rgba(Blend(base.red, alpha), Blend(base.green, alpha), Blend(base.blue, alpha), 255);
    }
  }

  method LayOnRow(pixmap: Pixmap, tile: Tile, y: nat, ghost start: nat, ghost before: seq<Pixel>)
    requires pixmap.Valid() && y < pixmap.height && start == y * pixmap.width
    requires LaidUpTo(tile, pixmap.pixels[..], before, pixmap.width, SUPERSAMPLE, start)
    modifies pixmap.pixels
    ensures LaidUpTo(tile, pixmap.pixels[..], before, pixmap.width, SUPERSAMPLE, start + pixmap.width)
  {
    var x := 0;
    while x < pixmap.width
      invariant 0 <= x <= pixmap.width
      invariant LaidUpTo(tile, pixmap.pixels[..], before, pixmap.width, SUPERSAMPLE, start + x)
    {
      RowAndColumn(x, y, pixmap.width);
      InBounds(x, y, pixmap.width, pixmap.height);
      LayOnPixel(pixmap, tile, x, y, y * pixmap.width + x, before);
      x := x + 1;
    }
  }

  lemma NextRow(y: nat, width: nat)
    ensures y * width + width == (y + 1) * width
  {
  }

  /** Each block of `SUPERSAMPLE` by `SUPERSAMPLE` pixels takes the alpha of the
      one delivered pixel it stands for, and every pixel its own blend. */
  method DrawPaperTexture(pixmap: Pixmap, paper: Paper, tile: Tile)
    requires pixmap.Valid()
    modifies pixmap.pixels
    ensures LaidUpTo(tile, pixmap.pixels[..], old(pixmap.pixels[..]), pixmap.width, SUPERSAMPLE,
                     if paper.BlankPaper? then 0 else pixmap.pixels.Length)
  {
    if paper.BlankPaper? { return; }
    ghost var before, start := pixmap.pixels[..], 0;
    var y := 0;
    while y < pixmap.height
      invariant 0 <= y <= pixmap.height && start == y * pixmap.width
      invariant LaidUpTo(tile, pixmap.pixels[..], before, pixmap.width, SUPERSAMPLE, start)
    {
      LayOnRow(pixmap, tile, y, start, before);
      NextRow(y, pixmap.width);
      start := start + pixmap.width;
      y := y + 1;
    }
    assert start == pixmap.pixels.Length by { assert pixmap.width * pixmap.height == pixmap.height * pixmap.width; }
  }

  // ---- The box filter -----------------------------------------------------

  const SOURCE_WIDTH: nat := 480
  const SOURCE_HEIGHT: nat := 320

  datatype Sums = Sums(red: nat, green: nat, blue: nat, alpha: nat)

  function Plus(s: Sums, p: Pixel): Sums {
    Sums(s.red + p.red, s.green + p.green, s.blue + p.blue, s.alpha + p.alpha)
  }

  function SumOf(pixels: seq<Pixel>): (s: Sums)
    ensures s.red <= s.alpha && s.green <= s.alpha && s.blue <= s.alpha <= 255 * |pixels|
  {
    if pixels == [] then Sums(0, 0, 0, 0) else Plus(SumOf(pixels[..|pixels| - 1]), pixels[|pixels| - 1])
  }

  /** The four source pixels under delivered pixel (x, y). */
  function Block(source: seq<Pixel>, x: nat, y: nat): (block: seq<Pixel>)
    requires |source| == SOURCE_WIDTH * SOURCE_HEIGHT && x < WIDTH && y < HEIGHT
    ensures |block| == 4
  {
    var top, bottom := 2 * y * 480 + 2 * x, (2 * y + 1) * 480 + 2 * x;
    [source[top], source[top + 1], source[bottom], source[bottom + 1]]
  }

  /** Where the `k`th pixel of a block stands in the source: the two of its upper row,
      then the two below them. */
  function BlockIndex(x: nat, y: nat, k: nat): nat { (2 * y + k / 2) * 480 + 2 * x + k % 2 }

  lemma HalfOf(n: nat, d: nat)
    requires d < 2
    ensures (2 * n + d) / 2 == n && (2 * n + d) % 2 == d
  {
  }

  lemma OnePlaceOnly(x: nat, y: nat, k: nat)
    requires x < WIDTH && k < 4
    ensures var i := BlockIndex(x, y, k);
            (x, y, k) == (i % 480 / 2, i / 480 / 2, i / 480 % 2 * 2 + i % 480 % 2)
  {
    RowAndColumn(2 * x + k % 2, 2 * y + k / 2, 480);
    HalfOf(x, k % 2);
    HalfOf(y, k / 2);
  }

  /** The blocks share the source out: each pixel of it is in exactly one of them, at
      one place. */
  lemma EachPixelIsInOneBlock(source: seq<Pixel>, i: nat)
    requires |source| == SOURCE_WIDTH * SOURCE_HEIGHT && i < |source|
    ensures var (x, y, k) := (i % 480 / 2, i / 480 / 2, i / 480 % 2 * 2 + i % 480 % 2);
      && x < WIDTH && y < HEIGHT && k < 4
      && i == BlockIndex(x, y, k) && Block(source, x, y)[k] == source[i]
    ensures forall x, y, k :: 0 <= x < WIDTH && 0 <= y < HEIGHT && 0 <= k < 4 && i == BlockIndex(x, y, k) ==>
              (x, y, k) == (i % 480 / 2, i / 480 / 2, i / 480 % 2 * 2 + i % 480 % 2)
  {
    forall x, y, k | 0 <= x < WIDTH && 0 <= y < HEIGHT && 0 <= k < 4 && i == BlockIndex(x, y, k)
      ensures (x, y, k) == (i % 480 / 2, i / 480 / 2, i / 480 % 2 * 2 + i % 480 % 2)
    {
      OnePlaceOnly(x, y, k);
    }
  }

  function Mean(sum: nat): nat { (sum + 2) / 4 }

  /** The rounded mean of a block, channel by channel. */
  function MeanPixel(block: seq<Pixel>): Pixel
    requires |block| == 4
  {
    var s := SumOf(block);
    Rgba(Mean(s.red), Mean(s.green), Mean(s.blue), Mean(s.alpha))
  }

  function BlockAt(source: seq<Pixel>, i: nat): seq<Pixel>
    requires |source| == SOURCE_WIDTH * SOURCE_HEIGHT && i < WIDTH * HEIGHT
  {
    Block(source, i % 240, i / 240)
  }

  method SumBlock(source: Pixmap, x: nat, y: nat) returns (s: Sums)
    requires source.Valid() && source.width == SOURCE_WIDTH && source.height == SOURCE_HEIGHT
    requires x < WIDTH && y < HEIGHT
    ensures s == SumOf(Block(source.pixels[..], x, y))
  {
    s := Sums(0, 0, 0, 0);
    ghost var seen: seq<Pixel> := [];
    ghost var block := Block(source.pixels[..], x, y);
    var row := 0;
    while row < SUPERSAMPLE
      invariant 0 <= row <= SUPERSAMPLE
      invariant seen == block[..2 * row] && s == SumOf(seen)
    {
      var start := (2 * y + row) * 480 + 2 * x;
      var k := start;
      while k < start + SUPERSAMPLE
        invariant start <= k <= start + SUPERSAMPLE
        invariant seen == block[..2 * row + k - start] && s == SumOf(seen)
      {
        assert source.pixels[k] == block[2 * row + k - start];
        s := Plus(s, source.pixels[k]);
        assert (seen + [source.pixels[k]])[..|seen|] == seen;
        seen := seen + [source.pixels[k]];
        k := k + 1;
      }
      row := row + 1;
    }
    assert block[..4] == block;
  }

  method FilterPixel(source: Pixmap, x: nat, y: nat) returns (mean: Option<Pixel>)
    requires source.Valid() && source.width == SOURCE_WIDTH && source.height == SOURCE_HEIGHT
    requires x < WIDTH && y < HEIGHT
    ensures mean == Some(MeanPixel(Block(source.pixels[..], x, y)))
  {
    var s := SumBlock(source, x, y);
    mean := FromRgba(Mean(s.red), Mean(s.green), Mean(s.blue), Mean(s.alpha));
  }

  lemma BlockOfPixel(source: seq<Pixel>, x: nat, y: nat)
    requires |source| == SOURCE_WIDTH * SOURCE_HEIGHT && x < WIDTH && y < HEIGHT
    ensures BlockAt(source, y * 240 + x) == Block(source, x, y)
  {
    assert (y * 240 + x) % 240 == x && (y * 240 + x) / 240 == y;
  }

  /** Refuses only a surface of another size; of its own it gives every pixel the
      rounded mean of its own block. A mean of premultiplied pixels is one, so
      the other refusal never happens. */
  method Downsample(source: Pixmap) returns (r: Result<Pixmap>)
    requires source.Valid()
    ensures r.Ok? <==> (source.width, source.height) == (SOURCE_WIDTH, SOURCE_HEIGHT)
    ensures r.Ok? ==> r.value.Valid() && r.value.width == WIDTH && r.value.height == HEIGHT && fresh(r.value.pixels)
    ensures r.Ok? ==> forall i :: 0 <= i < WIDTH * HEIGHT ==>
                        r.value.pixels[i] == MeanPixel(BlockAt(source.pixels[..], i))
  {
    if (source.width, source.height) != (WIDTH * SUPERSAMPLE, HEIGHT * SUPERSAMPLE) {
      return Err("downsample source is not the supersampled size");
    }
    var target := new Pixmap(WIDTH, HEIGHT);
    var y := 0;
    while y < HEIGHT
      invariant 0 <= y <= HEIGHT
      invariant forall i :: 0 <= i < y * 240 ==> target.pixels[i] == MeanPixel(BlockAt(source.pixels[..], i))
    {
      var x := 0;
      while x < WIDTH
        invariant 0 <= x <= WIDTH
        invariant forall i :: 0 <= i < y * 240 + x ==> target.pixels[i] == MeanPixel(BlockAt(source.pixels[..], i))
      {
        var mean := FilterPixel(source, x, y);
        BlockOfPixel(source.pixels[..], x, y);
        if mean.None? {
          return Err("downsampled pixel is not premultiplied");
        }
        target.pixels[y * 240 + x] := mean.value;
        x := x + 1;
      }
      y := y + 1;
    }
    return Ok(target);
  }

  /** The mean is within half a step of the true mean of the block. */
  lemma MeanIsNearest(block: seq<Pixel>)
    requires |block| == 4
    ensures var m, s := MeanPixel(block), SumOf(block);
            && s.red - 1 <= 4 * m.red <= s.red + 2
            && s.green - 1 <= 4 * m.green <= s.green + 2
            && s.blue - 1 <= 4 * m.blue <= s.blue + 2
            && s.alpha - 1 <= 4 * m.alpha <= s.alpha + 2
  {
  }

  // ---- Grain and filter ---------------------------------------------------

  function GrainedBlock(block: seq<Pixel>, alpha: Byte): (grained: seq<Pixel>)
    requires |block| == 4
    ensures |grained| == 4
  {
    [Grained(block[0], alpha), Grained(block[1], alpha), Grained(block[2], alpha), Grained(block[3], alpha)]
  }

  lemma SumOfFour(a: Pixel, b: Pixel, c: Pixel, d: Pixel)
    ensures SumOf([a, b, c, d])
         == Sums(a.red + b.red + c.red + d.red, a.green + b.green + c.green + d.green,
                 a.blue + b.blue + c.blue + d.blue, a.alpha + b.alpha + c.alpha + d.alpha)
  {
    var block := [a, b, c, d];
    assert block[..3] == [a, b, c] && block[..3][..2] == [a, b] && block[..3][..2][..1] == [a];
    assert SumOf([a]) == Plus(SumOf([]), a);
    assert SumOf([a, b]) == Plus(SumOf([a]), b);
    assert SumOf([a, b, c]) == Plus(SumOf([a, b]), c);
  }

  lemma MeanOfFour(a: Pixel, b: Pixel, c: Pixel, d: Pixel)
    ensures MeanPixel([a, b, c, d])
         == Rgba(Mean(a.red + b.red + c.red + d.red), Mean(a.green + b.green + c.green + d.green),
                 Mean(a.blue + b.blue + c.blue + d.blue), Mean(a.alpha + b.alpha + c.alpha + d.alpha))
  {
    SumOfFour(a, b, c, d);
  }

  lemma UniformMean(p: Pixel)
    ensures MeanPixel([p, p, p, p]) == p
  {
    MeanOfFour(p, p, p, p);
  }

  /** Laying the grain on a laid-out surface, seen block by block: all four
      pixels of a block take the same alpha, that of their delivered pixel. */
  lemma GrainByBlocks(tile: Tile, now: seq<Pixel>, before: seq<Pixel>, x: nat, y: nat)
    requires |before| == SOURCE_WIDTH * SOURCE_HEIGHT && x < WIDTH && y < HEIGHT
    requires LaidUpTo(tile, now, before, SOURCE_WIDTH, SUPERSAMPLE, |before|)
    ensures Block(now, x, y) == GrainedBlock(Block(before, x, y), GrainAlpha(tile, x, y))
  {
    GrainAtCorner(tile, now, before, x, y, 0, 0);
    GrainAtCorner(tile, now, before, x, y, 1, 0);
    GrainAtCorner(tile, now, before, x, y, 0, 1);
    GrainAtCorner(tile, now, before, x, y, 1, 1);
  }

  lemma CornerCell(x: nat, y: nat, dx: nat, dy: nat)
    requires x < WIDTH && y < HEIGHT && dx < 2 && dy < 2
    ensures var i := (2 * y + dy) * 480 + 2 * x + dx;
      i < SOURCE_WIDTH * SOURCE_HEIGHT && i % SOURCE_WIDTH / SUPERSAMPLE == x && i / SOURCE_WIDTH / SUPERSAMPLE == y
  {
    var i := (2 * y + dy) * 480 + 2 * x + dx;
    assert i % 480 == 2 * x + dx && i / 480 == 2 * y + dy;
  }

  lemma GrainAtCorner(tile: Tile, now: seq<Pixel>, before: seq<Pixel>, x: nat, y: nat, dx: nat, dy: nat)
    requires |before| == SOURCE_WIDTH * SOURCE_HEIGHT && x < WIDTH && y < HEIGHT && dx < 2 && dy < 2
    requires LaidUpTo(tile, now, before, SOURCE_WIDTH, SUPERSAMPLE, |before|)
    ensures var i := (2 * y + dy) * 480 + 2 * x + dx; now[i] == Grained(before[i], GrainAlpha(tile, x, y))
  {
    var i := (2 * y + dy) * 480 + 2 * x + dx;
    CornerCell(x, y, dx, dy);
    assert now[i] == GrainedAt(tile, before[i], i, SOURCE_WIDTH, SUPERSAMPLE);
  }

  /** On a surface that is uniform within each block, laying the grain
      supersampled and filtering gives what filtering and laying the grain at the
      delivered size gives. */
  lemma GrainCommutesWithTheFilter(tile: Tile, now: seq<Pixel>, before: seq<Pixel>, x: nat, y: nat, p: Pixel)
    requires |before| == SOURCE_WIDTH * SOURCE_HEIGHT && x < WIDTH && y < HEIGHT
    requires LaidUpTo(tile, now, before, SOURCE_WIDTH, SUPERSAMPLE, |before|) && Block(before, x, y) == [p, p, p, p]
    ensures MeanPixel(Block(before, x, y)) == p
    ensures MeanPixel(Block(now, x, y)) == GrainedAt(tile, p, y * WIDTH + x, WIDTH, 1)
  {
    GrainByBlocks(tile, now, before, x, y);
    UniformMean(p);
    UniformMean(Grained(p, GrainAlpha(tile, x, y)));
    RowAndColumn(x, y, WIDTH);
  }

  lemma FillIsUniform(source: seq<Pixel>, p: Pixel, x: nat, y: nat)
    requires |source| == SOURCE_WIDTH * SOURCE_HEIGHT && x < WIDTH && y < HEIGHT
    requires forall i :: 0 <= i < |source| ==> source[i] == p
    ensures Block(source, x, y) == [p, p, p, p]
  {
  }

  /** One delivered pixel of a filled surface with the grain laid on it. */
  lemma FilledPixel(tile: Tile, now: seq<Pixel>, before: seq<Pixel>, p: Pixel, grained: bool, i: nat)
    requires |before| == SOURCE_WIDTH * SOURCE_HEIGHT && i < WIDTH * HEIGHT
    requires forall k :: 0 <= k < |before| ==> before[k] == p
    requires LaidUpTo(tile, now, before, SOURCE_WIDTH, SUPERSAMPLE, if grained then |before| else 0)
    ensures MeanPixel(BlockAt(now, i)) == if grained then GrainedAt(tile, p, i, WIDTH, 1) else p
  {
    var x, y := i % 240, i / 240;
    FillIsUniform(before, p, x, y);
    if grained {
      GrainCommutesWithTheFilter(tile, now, before, x, y, p);
      assert y * WIDTH + x == i;
    } else {
      FillIsUniform(now, p, x, y);
      UniformMean(p);
    }
  }

  /** A thumbnail's paper as the code lays it: the white fill, the grain on the
      supersampled surface, and the box filter. It is the white delivered surface
      with the grain laid on it pixel by pixel. */
  method PaperGround(paper: Paper, tile: Tile) returns (r: Result<Pixmap>)
    ensures r.Ok? && r.value.Valid() && r.value.width == WIDTH && r.value.height == HEIGHT
    ensures forall i :: 0 <= i < WIDTH * HEIGHT ==>
              r.value.pixels[i] == if paper.BlankPaper? then WHITE else GrainedAt(tile, WHITE, i, WIDTH, 1)
  {
    var pixmap := new Pixmap(WIDTH * SUPERSAMPLE, HEIGHT * SUPERSAMPLE);
    pixmap.Fill(WHITE);
    ghost var before := pixmap.pixels[..];
    DrawPaperTexture(pixmap, paper, tile);
    forall i | 0 <= i < WIDTH * HEIGHT
      ensures MeanPixel(BlockAt(pixmap.pixels[..], i))
           == if paper.BlankPaper? then WHITE else GrainedAt(tile, WHITE, i, WIDTH, 1)
    {
      FilledPixel(tile, pixmap.pixels[..], before, WHITE, !paper.BlankPaper?, i);
    }
    r := Downsample(pixmap);
  }

  // ---- Grain and filter on other surfaces ---------------------------------

  /** `blend` is the given grain and `dst`, weighted by `k`, to the nearest. */
  predicate BlendsTo(dst: nat, k: nat, grain: nat, blend: nat) {
    grain + dst * k - 127 <= 255 * blend <= grain + dst * k + 127
  }

  lemma WithinOne(a: nat, b: nat, c: nat, d: nat, k: nat, grain: nat,
                  blendA: nat, blendB: nat, blendC: nat, blendD: nat, ofMean: nat)
    requires k <= 255
    requires BlendsTo(a, k, grain, blendA) && BlendsTo(b, k, grain, blendB)
    requires BlendsTo(c, k, grain, blendC) && BlendsTo(d, k, grain, blendD)
    requires BlendsTo(Mean(a + b + c + d), k, grain, ofMean)
    ensures -1 <= Mean(blendA + blendB + blendC + blendD) - ofMean <= 1
  {
    var weighed := SumsBlend(a, b, c, d, k, grain, blendA, blendB, blendC, blendD);
    var mean := MeanWeighs(a + b + c + d, k, weighed, grain, ofMean);
    Rounding(blendA + blendB + blendC + blendD, ofMean, weighed, mean, grain, k);
  }

  lemma SumsBlend(
      a: nat, b: nat, c: nat, d: nat, k: nat, grain: nat, blendA: nat, blendB: nat, blendC: nat, blendD: nat)
    returns (weighed: nat)
    requires BlendsTo(a, k, grain, blendA) && BlendsTo(b, k, grain, blendB)
    requires BlendsTo(c, k, grain, blendC) && BlendsTo(d, k, grain, blendD)
    ensures weighed == (a + b + c + d) * k
    ensures 4 * grain + weighed - 508 <= 255 * (blendA + blendB + blendC + blendD) <= 4 * grain + weighed + 508
  {
    weighed := (a + b + c + d) * k;
    assert weighed == a * k + b * k + c * k + d * k;
  }

  lemma MeanWeighs(sum: nat, k: nat, weighed: nat, grain: nat, ofMean: nat) returns (mean: nat)
    requires weighed == sum * k && BlendsTo(Mean(sum), k, grain, ofMean)
    ensures weighed - k <= 4 * mean <= weighed + 2 * k
    ensures grain + mean - 127 <= 255 * ofMean <= grain + mean + 127
  {
    mean := Mean(sum) * k;
    var above: nat := sum + 2 - 4 * Mean(sum);
    assert above <= 3;
    assert 4 * mean == (sum + 2 - above) * k == sum * k + 2 * k - above * k;
    Monotone(above, 3, k);
  }

  lemma Rounding(blends: nat, ofMean: nat, sum: nat, mean: nat, grain: nat, k: nat)
    requires 4 * grain + sum - 508 <= 255 * blends <= 4 * grain + sum + 508
    requires grain + mean - 127 <= 255 * ofMean <= grain + mean + 127
    requires sum - k <= 4 * mean <= sum + 2 * k && k <= 255
    ensures -1 <= Mean(blends) - ofMean <= 1
  {
  }

  lemma BlendError(dst: Byte, alpha: Byte)
    ensures BlendsTo(dst, 255 - alpha, GRAIN * alpha, Blend(dst, alpha))
  {
  }

  /** One channel: the mean of the blends is within a step of the blend of the
      mean. */
  lemma ChannelAlmostCommutes(a: Byte, b: Byte, c: Byte, d: Byte, alpha: Byte)
    ensures -1 <= Mean(Blend(a, alpha) + Blend(b, alpha) + Blend(c, alpha) + Blend(d, alpha))
                  - Blend(Mean(a + b + c + d), alpha) <= 1
  {
    var mean := Mean(a + b + c + d);
    BlendError(a, alpha);
    BlendError(b, alpha);
    BlendError(c, alpha);
    BlendError(d, alpha);
    BlendError(mean, alpha);
    WithinOne(a, b, c, d, 255 - alpha, GRAIN * alpha,
              Blend(a, alpha), Blend(b, alpha), Blend(c, alpha), Blend(d, alpha), Blend(mean, alpha));
  }

  /** No channel of the two pixels differs by more than one step. */
  predicate WithinAStep(p: Pixel, q: Pixel) {
    && -1 <= p.red - q.red <= 1 && -1 <= p.green - q.green <= 1
    && -1 <= p.blue - q.blue <= 1 && p.alpha == q.alpha
  }

  datatype Channel = Red | Green | Blue

  function Of(p: Pixel, channel: Channel): Byte {
    match channel
    case Red => p.red
    case Green => p.green
    case Blue => p.blue
  }

  lemma OfMean(a: Pixel, b: Pixel, c: Pixel, d: Pixel, channel: Channel)
    ensures Of(MeanPixel([a, b, c, d]), channel)
         == Mean(Of(a, channel) + Of(b, channel) + Of(c, channel) + Of(d, channel))
  {
    MeanOfFour(a, b, c, d);
  }

  lemma OfGrained(p: Pixel, alpha: Byte, channel: Channel)
    requires alpha != 0
    ensures Of(Grained(p, alpha), channel) == Blend(Of(p, channel), alpha)
  {
  }

  lemma OfGrainedMean(a: Pixel, b: Pixel, c: Pixel, d: Pixel, alpha: Byte, channel: Channel)
    requires alpha != 0
    ensures Of(MeanPixel(GrainedBlock([a, b, c, d], alpha)), channel)
         == Mean(Blend(Of(a, channel), alpha) + Blend(Of(b, channel), alpha)
                 + Blend(Of(c, channel), alpha) + Blend(Of(d, channel), alpha))
  {
    OfMean(Grained(a, alpha), Grained(b, alpha), Grained(c, alpha), Grained(d, alpha), channel);
    OfGrained(a, alpha, channel);
    OfGrained(b, alpha, channel);
    OfGrained(c, alpha, channel);
    OfGrained(d, alpha, channel);
  }

  lemma OfMeanGrained(a: Pixel, b: Pixel, c: Pixel, d: Pixel, alpha: Byte, channel: Channel)
    requires alpha != 0
    ensures Of(Grained(MeanPixel([a, b, c, d]), alpha), channel)
         == Blend(Mean(Of(a, channel) + Of(b, channel) + Of(c, channel) + Of(d, channel)), alpha)
  {
    OfMean(a, b, c, d, channel);
    OfGrained(MeanPixel([a, b, c, d]), alpha, channel);
  }

  lemma MixedAlmostCommutes(a: Pixel, b: Pixel, c: Pixel, d: Pixel, alpha: Byte, channel: Channel)
    requires alpha != 0
    ensures -1 <= Of(MeanPixel(GrainedBlock([a, b, c, d], alpha)), channel)
                  - Of(Grained(MeanPixel([a, b, c, d]), alpha), channel) <= 1
  {
    var (p, q, r, s) := (Of(a, channel), Of(b, channel), Of(c, channel), Of(d, channel));
    OfGrainedMean(a, b, c, d, alpha, channel);
    OfMeanGrained(a, b, c, d, alpha, channel);
    ChannelAlmostCommutes(p, q, r, s, alpha);
  }

  lemma MixedIsOpaque(a: Pixel, b: Pixel, c: Pixel, d: Pixel, alpha: Byte)
    requires alpha != 0
    ensures MeanPixel(GrainedBlock([a, b, c, d], alpha)).alpha == 255
  {
    MeanOfFour(Grained(a, alpha), Grained(b, alpha), Grained(c, alpha), Grained(d, alpha));
  }

  lemma BlockAlmostCommutes(block: seq<Pixel>, alpha: Byte)
    requires |block| == 4
    ensures WithinAStep(MeanPixel(GrainedBlock(block, alpha)), Grained(MeanPixel(block), alpha))
    ensures alpha == 0 ==> MeanPixel(GrainedBlock(block, alpha)) == Grained(MeanPixel(block), alpha)
  {
    assert block == [block[0], block[1], block[2], block[3]];
    if alpha == 0 {
      assert GrainedBlock(block, alpha) == block;
    } else {
      MixedAlmostCommutes(block[0], block[1], block[2], block[3], alpha, Red);
      MixedAlmostCommutes(block[0], block[1], block[2], block[3], alpha, Green);
      MixedAlmostCommutes(block[0], block[1], block[2], block[3], alpha, Blue);
      MixedIsOpaque(block[0], block[1], block[2], block[3], alpha);
    }
  }

  /** On any surface whatever, laying the grain and filtering in the other order
      changes no channel of a delivered pixel by more than one step, and nothing
      where the tile is clear. */
  lemma GrainAlmostCommutes(tile: Tile, now: seq<Pixel>, before: seq<Pixel>, x: nat, y: nat)
    requires |before| == SOURCE_WIDTH * SOURCE_HEIGHT && x < WIDTH && y < HEIGHT
    requires LaidUpTo(tile, now, before, SOURCE_WIDTH, SUPERSAMPLE, |before|)
    ensures var laidFirst, laidLast :=
              MeanPixel(Block(now, x, y)), GrainedAt(tile, MeanPixel(Block(before, x, y)), y * WIDTH + x, WIDTH, 1);
            WithinAStep(laidFirst, laidLast) && (GrainAlpha(tile, x, y) == 0 ==> laidFirst == laidLast)
  {
    GrainByBlocks(tile, now, before, x, y);
    RowAndColumn(x, y, WIDTH);
    BlockAlmostCommutes(Block(before, x, y), GrainAlpha(tile, x, y));
  }

  /** That step is reached: three black pixels and a nearly black one under the
      faintest grain. */
  lemma GrainNeedNotCommute()
    ensures var black, dark := Rgba(0, 0, 0, 255), Rgba(14, 14, 14, 255);
      var block: seq<Pixel> := [black, black, black, dark];
      MeanPixel(GrainedBlock(block, 1)) != Grained(MeanPixel(block), 1)
  {
    var black: Pixel, dark: Pixel := Rgba(0, 0, 0, 255), Rgba(14, 14, 14, 255);
    SumOfFour(black, black, black, dark);
    SumOfFour(Grained(black, 1), Grained(black, 1), Grained(black, 1), Grained(dark, 1));
  }
}
