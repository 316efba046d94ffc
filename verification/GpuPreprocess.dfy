/** src/device/gpu_preprocess.cu: resize, letterbox, channel swap, normalisation and planar layout in one kernel. */
module GpuPreprocess {
  import opened Arithmetic

  const BLOCK := 16

  /** `src` is the copied image, rows of `srcStep` bytes; the output is the planar block of dst_nchw starting at `base`. */
  datatype Launch = Launch(
    src: seq<nat>, srcW: nat, srcH: nat, srcStep: nat, dstW: nat, dstH: nat,
    scale: real, padLeft: int, padTop: int, normScale: real, padValue: nat, base: nat)

  ghost predicate WellFormed(l: Launch) {
    && 0 < l.srcW && 0 < l.srcH && 3 * l.srcW <= l.srcStep && l.srcH * l.srcStep <= |l.src|
    && (forall i :: 0 <= i < |l.src| ==> l.src[i] <= 255)
    && 0 < l.dstW && 0 < l.dstH && l.scale > 0.0 && l.padValue <= 255
  }

  function Max(a: int, b: int): int {
    if a < b then b else a
  }

  /** `max(0, min(x, n - 1))`. */
  function ClampIndex(x: int, n: nat): (i: nat)
    requires n > 0
    ensures i < n && (0 <= x < n ==> i == x)
  {
    Max(0, Min(x, n - 1))
  }

  function ReadOffset(l: Launch, x: nat, y: nat, channel: nat): nat {
    y * l.srcStep + x * 3 + channel
  }

  /** Every read of a neighbour, of any channel, is inside the image. */
  lemma ReadInRange(l: Launch, x: nat, y: nat, channel: nat)
    requires WellFormed(l) && x < l.srcW && y < l.srcH && channel < 3
    ensures ReadOffset(l, x, y, channel) < l.srcH * l.srcStep <= |l.src|
  {
    CellInRange(y, l.srcH, x * 3 + channel, l.srcStep);
  }

  function Read(l: Launch, x: nat, y: nat, channel: nat): (v: real)
    requires WellFormed(l) && x < l.srcW && y < l.srcH && channel < 3
    ensures 0.0 <= v <= 255.0
  {
    ReadInRange(l, x, y, channel);
    l.src[ReadOffset(l, x, y, channel)] as real
  }

  function Mix(a: real, b: real, f: real): real {
    a * (1.0 - f) + b * f
  }

  lemma ProductNonNegative(a: real, b: real)
    requires a >= 0.0 && b >= 0.0
    ensures a * b >= 0.0
  {
  }

  /** An interpolation with weight in [0, 1) stays between the bounds of what it interpolates. */
  lemma MixBetween(a: real, b: real, f: real, lo: real, hi: real)
    requires 0.0 <= f < 1.0 && lo <= a <= hi && lo <= b <= hi
    ensures lo <= Mix(a, b, f) <= hi
  {
    ProductNonNegative(a - lo, 1.0 - f);
    ProductNonNegative(b - lo, f);
    ProductNonNegative(hi - a, 1.0 - f);
    ProductNonNegative(hi - b, f);
    assert Mix(a, b, f) - lo == (a - lo) * (1.0 - f) + (b - lo) * f;
    assert hi - Mix(a, b, f) == (hi - a) * (1.0 - f) + (hi - b) * f;
  }

  /** The source coordinate of a pixel of the image area along one axis. */
  function SourceCoordinate(offset: int, scale: real): real
    requires scale > 0.0
  {
    (offset as real + 0.5) / scale - 0.5
  }

  /** Pixel centers correspond: scaling the source center gives back the center of the pixel it was computed from. */
  lemma CoordinateInverts(offset: int, scale: real)
    requires scale > 0.0
    ensures (SourceCoordinate(offset, scale) + 0.5) * scale == offset as real + 0.5
  {
  }

  /** Bilinear interpolation of one source channel at a real position, neighbours clamped to the image. */
  function Sample(l: Launch, sx: real, sy: real, channel: nat): real
    requires WellFormed(l) && channel < 3
  {
    var x0, y0 := sx.Floor, sy.Floor;
    var fx, fy := sx - x0 as real, sy - y0 as real;
    var (xl, xr) := (ClampIndex(x0, l.srcW), ClampIndex(x0 + 1, l.srcW));
    var (yt, yb) := (ClampIndex(y0, l.srcH), ClampIndex(y0 + 1, l.srcH));
    Mix(Mix(Read(l, xl, yt, channel), Read(l, xr, yt, channel), fx),
        Mix(Read(l, xl, yb, channel), Read(l, xr, yb, channel), fx), fy)
  }

  lemma SampleInRange(l: Launch, sx: real, sy: real, channel: nat)
    requires WellFormed(l) && channel < 3
    ensures 0.0 <= Sample(l, sx, sy, channel) <= 255.0
  {
    var x0, y0 := sx.Floor, sy.Floor;
    var fx, fy := sx - x0 as real, sy - y0 as real;
    var (xl, xr) := (ClampIndex(x0, l.srcW), ClampIndex(x0 + 1, l.srcW));
    var (yt, yb) := (ClampIndex(y0, l.srcH), ClampIndex(y0 + 1, l.srcH));
    var p00, p10 := Read(l, xl, yt, channel), Read(l, xr, yt, channel);
    var p01, p11 := Read(l, xl, yb, channel), Read(l, xr, yb, channel);
    MixBetween(p00, p10, fx, 0.0, 255.0);
    MixBetween(p01, p11, fx, 0.0, 255.0);
    MixBetween(Mix(p00, p10, fx), Mix(p01, p11, fx), fy, 0.0, 255.0);
  }

  predicate InImageArea(l: Launch, x: nat, y: nat) {
    0 <= x - l.padLeft < l.dstW - 2 * l.padLeft && 0 <= y - l.padTop < l.dstH - 2 * l.padTop
  }

  /** The value of output channel c (0 is red) at a pixel, before normalisation. The source is stored blue first. */
  function Pixel(l: Launch, x: nat, y: nat, c: nat): (v: real)
    requires WellFormed(l) && c < 3
    ensures 0.0 <= v <= 255.0
  {
    if InImageArea(l, x, y) then
      SampleInRange(l, SourceCoordinate(x - l.padLeft, l.scale), SourceCoordinate(y - l.padTop, l.scale), 2 - c);
      Sample(l, SourceCoordinate(x - l.padLeft, l.scale), SourceCoordinate(y - l.padTop, l.scale), 2 - c)
    else l.padValue as real
  }

  /** At scale 1 the image area is a copy of the source, red and blue exchanged. */
  lemma UnitScaleCopies(l: Launch, x: nat, y: nat, c: nat)
    requires WellFormed(l) && c < 3 && l.scale == 1.0 && x < l.srcW && y < l.srcH
    requires 0 <= x + l.padLeft < l.dstW - l.padLeft && 0 <= y + l.padTop < l.dstH - l.padTop
    ensures y * l.srcStep + x * 3 + (2 - c) < |l.src|
    ensures Pixel(l, x + l.padLeft, y + l.padTop, c) == l.src[y * l.srcStep + x * 3 + (2 - c)] as real
  {
    ReadInRange(l, x, y, 2 - c);
    SampleAtPixel(l, x, y, 2 - c);
    UnitCoordinate(x);
    UnitCoordinate(y);
  }

  lemma UnitCoordinate(offset: int)
    ensures SourceCoordinate(offset, 1.0) == offset as real
  {
  }

  lemma SampleAtPixel(l: Launch, x: nat, y: nat, channel: nat)
    requires WellFormed(l) && channel < 3 && x < l.srcW && y < l.srcH
    ensures Sample(l, x as real, y as real, channel) == Read(l, x, y, channel)
  {
    var xr, yb := ClampIndex(x + 1, l.srcW), ClampIndex(y + 1, l.srcH);
    MixAtZero(Read(l, x, y, channel), Read(l, xr, y, channel));
    MixAtZero(Read(l, x, yb, channel), Read(l, xr, yb, channel));
    MixAtZero(Read(l, x, y, channel), Read(l, x, yb, channel));
  }

  lemma MixAtZero(a: real, b: real)
    ensures Mix(a, b, 0.0) == a
  {
  }

  // ---------- what the interpolation computes ----------

  function ClampReal(v: real, n: nat): (r: real)
    requires n > 0
    ensures 0.0 <= r <= (n - 1) as real
  {
    if v < 0.0 then 0.0 else if v > (n - 1) as real then (n - 1) as real else v
  }

  /** Along one axis: two neighbours on a line are interpolated to the line. */
  lemma MixAlong(p: real, q: real, s: real, n: nat, left: real, right: real)
    requires n > 0 && 0.0 <= s <= (n - 1) as real
    requires left == p + q * ClampIndex(s.Floor, n) as real && right == p + q * ClampIndex(s.Floor + 1, n) as real
    ensures Mix(left, right, s - s.Floor as real) == p + q * s
  {
    var k, f := s.Floor, s - s.Floor as real;
    if k + 1 < n {
      MixOfLine(p, q, k as real, f);
      assert (k + 1) as real == k as real + 1.0;
    } else {
      assert f == 0.0;
      MixAtZero(left, right);
    }
  }

  lemma MixOfLine(p: real, q: real, k: real, f: real)
    ensures Mix(p + q * k, p + q * (k + 1.0), f) == p + q * (k + f)
  {
    assert q * (k + 1.0) == q * k + q;
    assert Mix(p + q * k, p + q * k + q, f) == p + q * k + q * f;
    assert q * (k + f) == q * k + q * f;
  }

  /** The function a + b x + d y + e x y. */
  function Bilinear(a: real, b: real, d: real, e: real, x: real, y: real): real {
    a + b * x + d * y + e * (x * y)
  }

  ghost predicate IsBilinear(l: Launch, channel: nat, a: real, b: real, d: real, e: real)
    requires WellFormed(l) && channel < 3
  {
    forall x: nat, y: nat :: x < l.srcW && y < l.srcH ==> Read(l, x, y, channel) == Bilinear(a, b, d, e, x as real, y as real)
  }

  /** The interpolation along one row of the source. */
  function RowMix(l: Launch, sx: real, y: nat, channel: nat): real
    requires WellFormed(l) && channel < 3 && y < l.srcH
  {
    Mix(Read(l, ClampIndex(sx.Floor, l.srcW), y, channel), Read(l, ClampIndex(sx.Floor + 1, l.srcW), y, channel), sx - sx.Floor as real)
  }

  lemma SampleOfRows(l: Launch, sx: real, sy: real, channel: nat)
    requires WellFormed(l) && channel < 3
    ensures Sample(l, sx, sy, channel) ==
      Mix(RowMix(l, sx, ClampIndex(sy.Floor, l.srcH), channel), RowMix(l, sx, ClampIndex(sy.Floor + 1, l.srcH), channel), sy - sy.Floor as real)
  {
  }

  function Line(p: real, q: real, x: real): real {
    p + q * x
  }

  lemma RowOfLine(l: Launch, sx: real, y: nat, channel: nat, p: real, q: real)
    requires WellFormed(l) && channel < 3 && y < l.srcH && 0.0 <= sx <= (l.srcW - 1) as real
    requires forall x: nat :: x < l.srcW ==> Read(l, x, y, channel) == Line(p, q, x as real)
    ensures RowMix(l, sx, y, channel) == Line(p, q, sx)
  {
    var xl, xr := ClampIndex(sx.Floor, l.srcW), ClampIndex(sx.Floor + 1, l.srcW);
    MixAlong(p, q, sx, l.srcW, Read(l, xl, y, channel), Read(l, xr, y, channel));
  }

  lemma SampleOfLine(l: Launch, sx: real, sy: real, channel: nat, p: real, q: real)
    requires WellFormed(l) && channel < 3 && 0.0 <= sy <= (l.srcH - 1) as real
    requires forall y: nat :: y < l.srcH ==> RowMix(l, sx, y, channel) == Line(p, q, y as real)
    ensures Sample(l, sx, sy, channel) == Line(p, q, sy)
  {
    var yt, yb := ClampIndex(sy.Floor, l.srcH), ClampIndex(sy.Floor + 1, l.srcH);
    SampleOfRows(l, sx, sy, channel);
    MixAlong(p, q, sy, l.srcH, RowMix(l, sx, yt, channel), RowMix(l, sx, yb, channel));
  }

  /** Along a row a bilinear function is a line, and the lines of the rows meet any column in a line. */
  lemma LinesOfBilinear(a: real, b: real, d: real, e: real, x: real, y: real)
    ensures Bilinear(a, b, d, e, x, y) == Line(Line(a, d, y), Line(b, e, y), x) == Line(Line(a, b, x), Line(d, e, x), y)
  {
    assert e * (x * y) == (e * y) * x == (e * x) * y;
  }

  /** On an image whose channel is bilinear, sampling inside the image is exact. */
  lemma SampleIsExact(l: Launch, sx: real, sy: real, channel: nat, a: real, b: real, d: real, e: real)
    requires WellFormed(l) && channel < 3 && IsBilinear(l, channel, a, b, d, e)
    requires 0.0 <= sx <= (l.srcW - 1) as real && 0.0 <= sy <= (l.srcH - 1) as real
    ensures Sample(l, sx, sy, channel) == Bilinear(a, b, d, e, sx, sy)
  {
    forall y: nat | y < l.srcH
      ensures RowMix(l, sx, y, channel) == Line(Line(a, b, sx), Line(d, e, sx), y as real)
    {
      RowIsExact(l, sx, y, channel, a, b, d, e);
    }
    SampleOfLine(l, sx, sy, channel, Line(a, b, sx), Line(d, e, sx));
    LinesOfBilinear(a, b, d, e, sx, sy);
  }

  lemma RowIsExact(l: Launch, sx: real, y: nat, channel: nat, a: real, b: real, d: real, e: real)
    requires WellFormed(l) && channel < 3 && IsBilinear(l, channel, a, b, d, e) && y < l.srcH
    requires 0.0 <= sx <= (l.srcW - 1) as real
    ensures RowMix(l, sx, y, channel) == Line(Line(a, b, sx), Line(d, e, sx), y as real)
  {
    forall x: nat | x < l.srcW
      ensures Read(l, x, y, channel) == Line(Line(a, d, y as real), Line(b, e, y as real), x as real)
    {
      LinesOfBilinear(a, b, d, e, x as real, y as real);
    }
    RowOfLine(l, sx, y, channel, Line(a, d, y as real), Line(b, e, y as real));
    LinesOfBilinear(a, b, d, e, sx, y as real);
  }

  lemma MixOfSame(a: real, f: real)
    ensures Mix(a, a, f) == a
  {
  }

  /** Along one axis, outside the image both neighbours are the edge pixel, and at the edge the weight is zero. */
  lemma EdgeIndices(s: real, n: nat)
    requires n > 0
    ensures var c := ClampReal(s, n);
      && ClampIndex(c.Floor, n) == ClampIndex(s.Floor, n)
      && (c == s || (ClampIndex(s.Floor, n) == ClampIndex(s.Floor + 1, n) && c == c.Floor as real))
  {
  }

  lemma SampleClampsX(l: Launch, sx: real, sy: real, channel: nat)
    requires WellFormed(l) && channel < 3
    ensures Sample(l, sx, sy, channel) == Sample(l, ClampReal(sx, l.srcW), sy, channel)
  {
    EdgeIndices(sx, l.srcW);
    var c, f, x := ClampReal(sx, l.srcW), sx - sx.Floor as real, ClampIndex(sx.Floor, l.srcW);
    if c != sx {
      var xr := ClampIndex(c.Floor + 1, l.srcW);
      var yt, yb := ClampIndex(sy.Floor, l.srcH), ClampIndex(sy.Floor + 1, l.srcH);
      MixOfSame(Read(l, x, yt, channel), f);
      MixOfSame(Read(l, x, yb, channel), f);
      MixAtZero(Read(l, x, yt, channel), Read(l, xr, yt, channel));
      MixAtZero(Read(l, x, yb, channel), Read(l, xr, yb, channel));
    }
  }

  lemma SampleClampsY(l: Launch, sx: real, sy: real, channel: nat)
    requires WellFormed(l) && channel < 3
    ensures Sample(l, sx, sy, channel) == Sample(l, sx, ClampReal(sy, l.srcH), channel)
  {
    EdgeIndices(sy, l.srcH);
    var c, f, y := ClampReal(sy, l.srcH), sy - sy.Floor as real, ClampIndex(sy.Floor, l.srcH);
    SampleOfRows(l, sx, sy, channel);
    SampleOfRows(l, sx, c, channel);
    if c != sy {
      MixOfSame(RowMix(l, sx, y, channel), f);
      MixAtZero(RowMix(l, sx, y, channel), RowMix(l, sx, ClampIndex(c.Floor + 1, l.srcH), channel));
    }
  }

  /** Sampling outside the image is sampling at the nearest place inside it. */
  lemma SampleClamps(l: Launch, sx: real, sy: real, channel: nat)
    requires WellFormed(l) && channel < 3
    ensures Sample(l, sx, sy, channel) == Sample(l, ClampReal(sx, l.srcW), ClampReal(sy, l.srcH), channel)
  {
    SampleClampsX(l, sx, sy, channel);
    SampleClampsY(l, ClampReal(sx, l.srcW), sy, channel);
  }

  /** What the kernel computes of an image whose channel is bilinear: the exact value at the pixel's place in the source, or at
      the nearest place inside it; and on the border the padding value. */
  lemma PixelIsExact(l: Launch, x: nat, y: nat, c: nat, a: real, b: real, d: real, e: real)
    requires WellFormed(l) && c < 3 && IsBilinear(l, 2 - c, a, b, d, e)
    ensures var sx := ClampReal(((x - l.padLeft) as real + 0.5) / l.scale - 0.5, l.srcW);
      var sy := ClampReal(((y - l.padTop) as real + 0.5) / l.scale - 0.5, l.srcH);
      Pixel(l, x, y, c) ==
        if l.padLeft <= x < l.dstW - l.padLeft && l.padTop <= y < l.dstH - l.padTop then Bilinear(a, b, d, e, sx, sy)
        else l.padValue as real
  {
    if InImageArea(l, x, y) {
      var fx, fy := SourceCoordinate(x - l.padLeft, l.scale), SourceCoordinate(y - l.padTop, l.scale);
      SampleClamps(l, fx, fy, 2 - c);
      SampleIsExact(l, ClampReal(fx, l.srcW), ClampReal(fy, l.srcH), 2 - c, a, b, d, e);
    }
  }

  /** With a normalisation factor in [0, 1/255], as the detector passes, an output value lies in [0, 1]. */
  function Normalised(v: real, s: real): (r: real)
    requires 0.0 <= v <= 255.0
    ensures 0.0 <= s <= 1.0 / 255.0 ==> 0.0 <= r <= 1.0
  {
    NormalisedInRange(v, s);
    v * s
  }

  lemma NormalisedInRange(v: real, s: real)
    requires 0.0 <= v <= 255.0
    ensures 0.0 <= s <= 1.0 / 255.0 ==> 0.0 <= v * s <= 1.0
  {
    if 0.0 <= s <= 1.0 / 255.0 {
      ProductNonNegative(v, s);
      ProductNonNegative(255.0 - v, s);
      assert (255.0 - v) * s == 255.0 * s - v * s;
    }
  }

  /** Dividing by the factor gives the value back. */
  lemma NormalisedInverts(v: real, s: real)
    requires 0.0 <= v <= 255.0 && s != 0.0
    ensures Normalised(v, s) / s == v
  {
  }

  // ---------- the grid ----------

  datatype Thread = Thread(blockX: nat, blockY: nat, laneX: nat, laneY: nat)

  function Blocks(n: nat): nat {
    (n + BLOCK - 1) / BLOCK
  }

  predicate InGrid(l: Launch, t: Thread) {
    t.blockX < Blocks(l.dstW) && t.blockY < Blocks(l.dstH) && t.laneX < BLOCK && t.laneY < BLOCK
  }

  function X(t: Thread): nat {
    t.blockX * BLOCK + t.laneX
  }

  function Y(t: Thread): nat {
    t.blockY * BLOCK + t.laneY
  }

  /** The threads that pass the kernel's bounds test. */
  predicate Active(l: Launch, t: Thread) {
    InGrid(l, t) && X(t) < l.dstW && Y(t) < l.dstH
  }

  function PlaneSize(l: Launch): nat {
    l.dstH * l.dstW
  }

  /** Where a thread stores channel c. */
  function Cell(l: Launch, t: Thread, c: nat): nat {
    l.base + c * PlaneSize(l) + (Y(t) * l.dstW + X(t))
  }

  function ThreadOf(l: Launch, pixel: nat): Thread
    requires l.dstW > 0
  {
    var x, y := pixel % l.dstW, pixel / l.dstW;
    Thread(x / BLOCK, y / BLOCK, x % BLOCK, y % BLOCK)
  }

  lemma PixelOfThread(l: Launch, t: Thread)
    requires Active(l, t)
    ensures Y(t) * l.dstW + X(t) < PlaneSize(l) && l.dstW > 0
    ensures ThreadOf(l, Y(t) * l.dstW + X(t)) == t
  {
    CellInRange(Y(t), l.dstH, X(t), l.dstW);
    ModUnique(Y(t) * l.dstW + X(t), l.dstW, Y(t), X(t));
  }

  lemma ThreadOfPixel(l: Launch, pixel: nat)
    requires l.dstW > 0 && pixel < PlaneSize(l)
    ensures Active(l, ThreadOf(l, pixel))
    ensures Y(ThreadOf(l, pixel)) * l.dstW + X(ThreadOf(l, pixel)) == pixel
  {
    var x, y := pixel % l.dstW, pixel / l.dstW;
    assert pixel == y * l.dstW + x;
    if y >= l.dstH {
      MulMonotone(l.dstH, y, l.dstW);
    }
  }

  /** One store of one thread. */
  datatype Store = Store(t: Thread, c: nat)

  predicate IsStore(l: Launch, s: Store) {
    Active(l, s.t) && s.c < 3
  }

  predicate InBlock(l: Launch, k: int) {
    l.base <= k < l.base + 3 * PlaneSize(l)
  }

  lemma StoreInBlock(l: Launch, s: Store)
    requires IsStore(l, s)
    ensures InBlock(l, Cell(l, s.t, s.c))
  {
    PixelOfThread(l, s.t);
    CellInRange(s.c, 3, Y(s.t) * l.dstW + X(s.t), PlaneSize(l));
  }

  /** The store that fills a cell of the block. */
  lemma StoreOfCell(l: Launch, k: nat) returns (s: Store)
    requires l.dstW > 0 && InBlock(l, k)
    ensures IsStore(l, s) && Cell(l, s.t, s.c) == k
  {
    var c, pixel := Split3(k - l.base, PlaneSize(l));
    ThreadOfPixel(l, pixel);
    s := Store(ThreadOf(l, pixel), c);
  }

  /** The launch's stores and the cells of the output block correspond one to one: each store hits a cell of the block, two
      stores never the same one, and every cell is stored to. */
  lemma StoresCoverOnce(l: Launch)
    requires l.dstW > 0
    ensures forall s :: IsStore(l, s) ==> InBlock(l, Cell(l, s.t, s.c))
    ensures forall s, u :: IsStore(l, s) && IsStore(l, u) && Cell(l, s.t, s.c) == Cell(l, u.t, u.c) ==> s == u
    ensures forall k: nat :: InBlock(l, k) ==> exists s :: IsStore(l, s) && Cell(l, s.t, s.c) == k
  {
    forall s | IsStore(l, s)
      ensures InBlock(l, Cell(l, s.t, s.c))
    {
      StoreInBlock(l, s);
    }
    forall s, u | IsStore(l, s) && IsStore(l, u) && Cell(l, s.t, s.c) == Cell(l, u.t, u.c)
      ensures s == u
    {
      StoreUnique(l, s.t, s.c, u.t, u.c);
    }
    forall k: nat | InBlock(l, k)
      ensures exists s :: IsStore(l, s) && Cell(l, s.t, s.c) == k
    {
      var s := StoreOfCell(l, k);
    }
  }

  lemma Split3(k: nat, n: nat) returns (c: nat, r: nat)
    requires k < 3 * n
    ensures c < 3 && r < n && k == c * n + r
  {
    c := if k < n then 0 else if k < 2 * n then 1 else 2;
    r := k - c * n;
  }

  /** A cell's index gives back the store that hits it. */
  lemma CellDecodes(l: Launch, t: Thread, c: nat)
    requires Active(l, t) && c < 3
    ensures PlaneSize(l) > 0 && l.dstW > 0 && Cell(l, t, c) >= l.base
    ensures (Cell(l, t, c) - l.base) / PlaneSize(l) == c
    ensures ThreadOf(l, (Cell(l, t, c) - l.base) % PlaneSize(l)) == t
  {
    PixelOfThread(l, t);
    ModUnique(Cell(l, t, c) - l.base, PlaneSize(l), c, Y(t) * l.dstW + X(t));
  }

  lemma StoreUnique(l: Launch, t: Thread, c: nat, u: Thread, d: nat)
    requires Active(l, t) && Active(l, u) && c < 3 && d < 3 && Cell(l, t, c) == Cell(l, u, d)
    ensures t == u && c == d
  {
    CellDecodes(l, t, c);
    CellDecodes(l, u, d);
  }

  // ---------- runs ----------

  /** The value a store writes. */
  function Stored(l: Launch, s: Store): (v: real)
    requires WellFormed(l) && IsStore(l, s)
    ensures 0.0 <= l.normScale <= 1.0 / 255.0 ==> 0.0 <= v <= 1.0
  {
    Normalised(Pixel(l, X(s.t), Y(s.t), s.c), l.normScale)
  }

  /** The output after some of the launch's stores, in any order. */
  function Exec(l: Launch, dst: seq<real>, run: seq<Store>): (out: seq<real>)
    requires WellFormed(l) && l.base + 3 * PlaneSize(l) <= |dst| && forall k :: 0 <= k < |run| ==> IsStore(l, run[k])
    ensures |out| == |dst|
  {
    if run == [] then dst
    else
      var s := run[|run| - 1];
      StoreInBlock(l, s);
      Exec(l, dst, run[..|run| - 1])[Cell(l, s.t, s.c) := Stored(l, s)]
  }

  /** Whatever the order of the stores, a stored cell holds its own pixel's value and every other cell is untouched. */
  lemma {:induction false} ExecCell(l: Launch, dst: seq<real>, run: seq<Store>, s: Store)
    requires WellFormed(l) && l.base + 3 * PlaneSize(l) <= |dst| && forall k :: 0 <= k < |run| ==> IsStore(l, run[k])
    requires IsStore(l, s)
    ensures Cell(l, s.t, s.c) < |dst|
    ensures Exec(l, dst, run)[Cell(l, s.t, s.c)] == if s in run then Stored(l, s) else dst[Cell(l, s.t, s.c)]
  {
    StoreInBlock(l, s);
    if run != [] {
      var n := |run| - 1;
      ExecCell(l, dst, run[..n], s);
      assert run == run[..n] + [run[n]];
      StoreInBlock(l, run[n]);
      if Cell(l, s.t, s.c) == Cell(l, run[n].t, run[n].c) {
        StoreUnique(l, s.t, s.c, run[n].t, run[n].c);
      }
    }
  }

  lemma {:induction false} ExecOutside(l: Launch, dst: seq<real>, run: seq<Store>, k: nat)
    requires WellFormed(l) && l.base + 3 * PlaneSize(l) <= |dst| && forall k :: 0 <= k < |run| ==> IsStore(l, run[k])
    requires k < |dst| && !InBlock(l, k)
    ensures Exec(l, dst, run)[k] == dst[k]
  {
    if run != [] {
      StoreInBlock(l, run[|run| - 1]);
      ExecOutside(l, dst, run[..|run| - 1], k);
    }
  }

  ghost predicate Complete(l: Launch, run: seq<Store>) {
    && (forall k :: 0 <= k < |run| ==> IsStore(l, run[k]))
    && (forall s :: IsStore(l, s) ==> s in run)
  }

  /** A finished launch leaves a block that depends on the source alone: not on the order of the threads nor on what the
      buffer held before. Nothing outside the block changes, so a batch slot is filled without touching the others. */
  lemma LaunchIsDeterministic(l: Launch, dst: seq<real>, run: seq<Store>, stale: seq<real>, other: seq<Store>, k: nat)
    requires WellFormed(l) && l.base + 3 * PlaneSize(l) <= |dst| == |stale| && Complete(l, run) && Complete(l, other) && k < |dst|
    ensures InBlock(l, k) ==> Exec(l, dst, run)[k] == Exec(l, stale, other)[k]
    ensures !InBlock(l, k) ==> Exec(l, dst, run)[k] == dst[k]
  {
    if InBlock(l, k) {
      var s := StoreOfCell(l, k);
      ExecCell(l, dst, run, s);
      ExecCell(l, stale, other, s);
    } else {
      ExecOutside(l, dst, run, k);
    }
  }

  lemma ThreadAt(l: Launch, x: nat, y: nat, c: nat) returns (s: Store)
    requires x < l.dstW && y < l.dstH && c < 3
    ensures IsStore(l, s) && X(s.t) == x && Y(s.t) == y && s.c == c
  {
    s := Store(Thread(x / BLOCK, y / BLOCK, x % BLOCK, y % BLOCK), c);
  }

  /** A finished launch holds the normalised value of channel c of the pixel in row y and column x at that row and column of
      plane c. */
  lemma FinishedCell(l: Launch, dst: seq<real>, run: seq<Store>, x: nat, y: nat, c: nat, k: nat)
    requires WellFormed(l) && l.base + 3 * (l.dstH * l.dstW) <= |dst| && Complete(l, run)
    requires x < l.dstW && y < l.dstH && c < 3 && k == l.base + c * (l.dstH * l.dstW) + (y * l.dstW + x)
    ensures k < |dst| && Exec(l, dst, run)[k] == Normalised(Pixel(l, x, y, c), l.normScale)
  {
    var s := ThreadAt(l, x, y, c);
    CellIs(l, s, k);
    ExecCell(l, dst, run, s);
    assert s in run;
  }

  /** Around the image area it holds the normalised padding value. */
  lemma BorderCell(l: Launch, dst: seq<real>, run: seq<Store>, x: nat, y: nat, c: nat, k: nat)
    requires WellFormed(l) && l.base + 3 * (l.dstH * l.dstW) <= |dst| && Complete(l, run)
    requires x < l.dstW && y < l.dstH && c < 3 && k == l.base + c * (l.dstH * l.dstW) + (y * l.dstW + x)
    requires !(l.padLeft <= x < l.dstW - l.padLeft && l.padTop <= y < l.dstH - l.padTop)
    ensures k < |dst| && Exec(l, dst, run)[k] == Normalised(l.padValue as real, l.normScale)
  {
    FinishedCell(l, dst, run, x, y, c, k);
  }

  lemma CellIs(l: Launch, s: Store, k: nat)
    requires k == l.base + s.c * (l.dstH * l.dstW) + (Y(s.t) * l.dstW + X(s.t))
    ensures k == Cell(l, s.t, s.c)
  {
  }

  lemma ExecOneMore(l: Launch, dst: seq<real>, run: seq<Store>, s: Store)
    requires WellFormed(l) && l.base + 3 * PlaneSize(l) <= |dst| && IsStore(l, s) && forall k :: 0 <= k < |run| ==> IsStore(l, run[k])
    ensures Cell(l, s.t, s.c) < |dst|
    ensures Exec(l, dst, run + [s]) == Exec(l, dst, run)[Cell(l, s.t, s.c) := Stored(l, s)]
  {
    StoreInBlock(l, s);
    assert (run + [s])[..|run|] == run;
  }

  /** The kernel's body for one thread; `dst` holds what the stores `run` have made of `init`. */
  method RunThread(l: Launch, t: Thread, dst: array<real>, ghost init: seq<real>, ghost run: seq<Store>) returns (ghost run': seq<Store>)
    requires WellFormed(l) && InGrid(l, t) && l.base + 3 * PlaneSize(l) <= dst.Length == |init|
    requires (forall k :: 0 <= k < |run| ==> IsStore(l, run[k])) && dst[..] == Exec(l, init, run)
    modifies dst
    ensures (forall k :: 0 <= k < |run'| ==> IsStore(l, run'[k])) && dst[..] == Exec(l, init, run')
    ensures run' == if Active(l, t) then run + [Store(t, 0)] + [Store(t, 1)] + [Store(t, 2)] else run
  {
    run' := run;
    var x, y := X(t), Y(t);
    if x >= l.dstW || y >= l.dstH {
      return;
    }
    StoreCell(l, t, 0, Stored(l, Store(t, 0)), dst, init, run);
    StoreCell(l, t, 1, Stored(l, Store(t, 1)), dst, init, run + [Store(t, 0)]);
    StoreCell(l, t, 2, Stored(l, Store(t, 2)), dst, init, run + [Store(t, 0)] + [Store(t, 1)]);
    run' := run + [Store(t, 0)] + [Store(t, 1)] + [Store(t, 2)];
  }

  /** `dst_nchw[c * hw + dst_idx] = value`. */
  method StoreCell(l: Launch, t: Thread, c: nat, value: real, dst: array<real>, ghost init: seq<real>, ghost run: seq<Store>)
    requires WellFormed(l) && IsStore(l, Store(t, c)) && l.base + 3 * PlaneSize(l) <= dst.Length == |init|
    requires (forall k :: 0 <= k < |run| ==> IsStore(l, run[k])) && dst[..] == Exec(l, init, run)
    requires value == Stored(l, Store(t, c))
    modifies dst
    ensures dst[..] == Exec(l, init, run + [Store(t, c)])
  {
    ExecOneMore(l, init, run, Store(t, c));
    dst[l.base + c * PlaneSize(l) + (Y(t) * l.dstW + X(t))] := value;
  }

  /** A launch: the threads of the grid, each once, in the order given. */
  method RunLaunch(l: Launch, order: seq<Thread>, dst: array<real>)
    requires WellFormed(l) && l.base + 3 * PlaneSize(l) <= dst.Length
    requires (forall i :: 0 <= i < |order| ==> InGrid(l, order[i])) && forall t :: InGrid(l, t) ==> t in order
    modifies dst
    ensures forall s :: IsStore(l, s) ==> Cell(l, s.t, s.c) < dst.Length && dst[Cell(l, s.t, s.c)] == Stored(l, s)
    ensures forall k :: 0 <= k < dst.Length && !InBlock(l, k) ==> dst[k] == old(dst[k])
  {
    ghost var init: seq<real> := dst[..];
    ghost var run := RunThreads(l, order, dst);
    EveryThreadDone(l, run, order);
    FinishedLaunch(l, init, run);
  }

  method RunThreads(l: Launch, order: seq<Thread>, dst: array<real>) returns (ghost run: seq<Store>)
    requires WellFormed(l) && l.base + 3 * PlaneSize(l) <= dst.Length && forall i :: 0 <= i < |order| ==> InGrid(l, order[i])
    modifies dst
    ensures StoresDone(l, run, order) && dst[..] == Exec(l, old(dst[..]), run)
  {
    ghost var init: seq<real> := dst[..];
    run := [];
    for i := 0 to |order|
      invariant StoresDone(l, run, order[..i])
      invariant dst[..] == Exec(l, init, run)
    {
      RunGrows(l, order[..i], order[i], run);
      run := RunThread(l, order[i], dst, init, run);
      assert order[..i + 1] == order[..i] + [order[i]];
    }
    assert order[..|order|] == order;
  }

  /** `run` consists of stores of the launch, all those of the given threads among them. */
  ghost predicate StoresDone(l: Launch, run: seq<Store>, done: seq<Thread>) {
    && (forall k :: 0 <= k < |run| ==> IsStore(l, run[k]))
    && forall s :: IsStore(l, s) && s.t in done ==> s in run
  }

  lemma EveryThreadDone(l: Launch, run: seq<Store>, order: seq<Thread>)
    requires StoresDone(l, run, order) && forall t :: InGrid(l, t) ==> t in order
    ensures Complete(l, run)
  {
  }

  lemma RunGrows(l: Launch, done: seq<Thread>, t: Thread, run: seq<Store>)
    requires StoresDone(l, run, done)
    ensures var run' := if Active(l, t) then run + [Store(t, 0)] + [Store(t, 1)] + [Store(t, 2)] else run;
      StoresDone(l, run', done + [t])
  {
    var run' := if Active(l, t) then run + [Store(t, 0)] + [Store(t, 1)] + [Store(t, 2)] else run;
    forall s | IsStore(l, s) && s.t in done + [t]
      ensures s in run'
    {
      if s.t == t {
        assert run'[|run| + s.c] == s;
      } else {
        assert s in run;
      }
    }
  }

  lemma FinishedLaunch(l: Launch, init: seq<real>, run: seq<Store>)
    requires WellFormed(l) && l.base + 3 * PlaneSize(l) <= |init| && Complete(l, run)
    ensures var out := Exec(l, init, run);
      && (forall s :: IsStore(l, s) ==> Cell(l, s.t, s.c) < |out| && out[Cell(l, s.t, s.c)] == Stored(l, s))
      && (forall k :: 0 <= k < |out| && !InBlock(l, k) ==> out[k] == init[k])
  {
    var out := Exec(l, init, run);
    forall s | IsStore(l, s)
      ensures Cell(l, s.t, s.c) < |out| && out[Cell(l, s.t, s.c)] == Stored(l, s)
    {
      ExecCell(l, init, run, s);
    }
    forall k | 0 <= k < |out| && !InBlock(l, k)
      ensures out[k] == init[k]
    {
      ExecOutside(l, init, run, k);
    }
  }
}
