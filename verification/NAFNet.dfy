/** src/runner/image_restoration/NAFNet.cpp, CPU preprocess and postprocess, with pad_to_size and convert_and_normalize of
    src/preprocess/utils.cpp. Floats are reals. */
module NAFNet {
  import opened Arithmetic

  type Byte = x: nat | x < 256

  /** A pixel's three channels as they are stored; blue, green, red in an image that OpenCV has read. */
  datatype Pixel = Pixel(c0: Byte, c1: Byte, c2: Byte)

  type Image = seq<seq<Pixel>>

  predicate IsImage(img: Image, rows: nat, cols: nat) {
    |img| == rows && forall y :: 0 <= y < rows ==> |img[y]| == cols
  }

  /** cvtColor between BGR and RGB. */
  function Swapped(p: Pixel): Pixel {
    Pixel(p.c2, p.c1, p.c0)
  }

  function SwapChannels(img: Image, rows: nat, cols: nat): (r: Image)
    requires IsImage(img, rows, cols)
    ensures IsImage(r, rows, cols)
  {
    seq(rows, y requires 0 <= y < rows => seq(cols, x requires 0 <= x < cols => Swapped(img[y][x])))
  }

  // ---------- padding ----------

  datatype Params = Params(padLeft: nat, padTop: nat, origW: nat, origH: nat)

  datatype Padded = Ok(img: Image, params: Params) | TooSmall

  /** copyMakeBorder with a constant color. */
  function Bordered(img: Image, rows: nat, cols: nat, left: nat, top: nat, width: nat, height: nat, color: Pixel): (r: Image)
    requires IsImage(img, rows, cols)
    ensures IsImage(r, height, width)
  {
    seq(height, y requires 0 <= y < height => seq(width, x requires 0 <= x < width =>
      if top <= y < top + rows && left <= x < left + cols then img[y - top][x - left] else color))
  }

  function PadToSize(img: Image, rows: nat, cols: nat, width: nat, height: nat, color: Pixel): Padded
    requires IsImage(img, rows, cols)
  {
    if width < cols || height < rows then TooSmall
    else if width == cols && height == rows then Ok(img, Params(0, 0, cols, rows))
    else
      var top, left := (height - rows) / 2, (width - cols) / 2;
      Ok(Bordered(img, rows, cols, left, top, width, height, color), Params(left, top, cols, rows))
  }

  /** `big` shows the image with its top left corner at (left, top). */
  ghost predicate Shows(big: Image, width: nat, height: nat, img: Image, rows: nat, cols: nat, left: nat, top: nat)
    requires IsImage(big, height, width) && IsImage(img, rows, cols)
  {
    && left + cols <= width && top + rows <= height
    && forall y, x :: top <= y < top + rows && left <= x < left + cols ==> big[y][x] == img[y - top][x - left]
  }

  lemma BorderShows(img: Image, rows: nat, cols: nat, left: nat, top: nat, width: nat, height: nat, color: Pixel)
    requires IsImage(img, rows, cols) && left + cols <= width && top + rows <= height
    ensures Shows(Bordered(img, rows, cols, left, top, width, height, color), width, height, img, rows, cols, left, top)
  {
  }

  /** The padded image shows the original at the recorded offset, in a border of the given color that is shared out evenly. */
  lemma PaddingKeepsImage(img: Image, rows: nat, cols: nat, width: nat, height: nat, color: Pixel)
    requires IsImage(img, rows, cols)
    ensures PadToSize(img, rows, cols, width, height, color).Ok? <==> cols <= width && rows <= height
    ensures var r := PadToSize(img, rows, cols, width, height, color);
      r.Ok? ==>
        && IsImage(r.img, height, width)
        && r.params.origW == cols && r.params.origH == rows
        && 0 <= width - cols - r.params.padLeft - r.params.padLeft <= 1
        && 0 <= height - rows - r.params.padTop - r.params.padTop <= 1
        && Shows(r.img, width, height, img, rows, cols, r.params.padLeft, r.params.padTop)
        && forall y, x :: 0 <= y < height && 0 <= x < width ==>
             r.img[y][x] == color || (r.params.padTop <= y < r.params.padTop + rows && r.params.padLeft <= x < r.params.padLeft + cols)
  {
    if cols <= width && rows <= height && !(width == cols && height == rows) {
      BorderShows(img, rows, cols, (width - cols) / 2, (height - rows) / 2, width, height, color);
    }
  }

  // ---------- planes ----------

  function Channel(p: Pixel, c: nat): Byte
    requires c < 3
  {
    if c == 0 then p.c0 else if c == 1 then p.c1 else p.c2
  }

  /** What split and convertTo put at index i of plane c. */
  function PlaneValue(img: Image, width: nat, height: nat, bgr2rgb: bool, c: nat, i: nat): real
    requires IsImage(img, height, width) && c < 3 && i < height * width
  {
    RowOfIndex(i, width, height);
    var p := img[i / width][i % width];
    Channel(if bgr2rgb then Swapped(p) else p, c) as real / 255.0
  }

  lemma RowOfIndex(i: nat, width: nat, height: nat)
    requires i < height * width
    ensures width > 0 && i / width < height && i == (i / width) * width + i % width
  {
    if width == 0 {
      assert false;
    } else if i / width >= height {
      MulMonotone(height, i / width, width);
    }
  }

  ghost predicate IsPlanar(buf: seq<real>, base: nat, img: Image, width: nat, height: nat, bgr2rgb: bool) {
    && IsImage(img, height, width) && base + 3 * (height * width) <= |buf|
    && forall c, i :: 0 <= c < 3 && 0 <= i < height * width ==>
         buf[PlaneIndex(base, height * width, c, i)] == PlaneValue(img, width, height, bgr2rgb, c, i)
  }

  /** The planes up to an error of less than half a quantisation step. */
  ghost predicate NearPlanar(buf: seq<real>, base: nat, img: Image, width: nat, height: nat, bgr2rgb: bool) {
    && IsImage(img, height, width) && base + 3 * (height * width) <= |buf|
    && forall c, i :: 0 <= c < 3 && 0 <= i < height * width ==>
         -0.5 < (buf[PlaneIndex(base, height * width, c, i)] - PlaneValue(img, width, height, bgr2rgb, c, i)) * 255.0 < 0.5
  }

  function PlaneIndex(base: nat, hw: nat, c: nat, i: nat): (k: nat)
    requires c < 3 && i < hw
    ensures base + c * hw <= k < base + c * hw + hw <= base + 3 * hw
  {
    MulMonotone(c + 1, 3, hw);
    assert (c + 1) * hw == c * hw + hw;
    base + c * hw + i
  }

  /** The normalised channel c of the pixel in row y and column x, red and blue exchanged on request. */
  function ChannelValue(img: Image, y: nat, x: nat, bgr2rgb: bool, c: nat): real
    requires c < 3 && y < |img| && x < |img[y]|
  {
    (if c == 1 then img[y][x].c1 else if (c == 0) == bgr2rgb then img[y][x].c2 else img[y][x].c0) as real / 255.0
  }

  /** Planes hold it in row y and column x of plane c. */
  lemma PlanarCell(buf: seq<real>, base: nat, img: Image, width: nat, height: nat, bgr2rgb: bool, c: nat, y: nat, x: nat)
    requires IsPlanar(buf, base, img, width, height, bgr2rgb) && c < 3 && y < height && x < width
    ensures var k := base + c * (height * width) + (y * width + x);
      k < |buf| && buf[k] == ChannelValue(img, y, x, bgr2rgb, c)
  {
    var i := y * width + x;
    CellInRange(y, height, x, width);
    ModUnique(i, width, y, x);
    assert buf[PlaneIndex(base, height * width, c, i)] == PlaneValue(img, width, height, bgr2rgb, c, i);
  }

  /** One channel's convertTo. */
  method FillPlane(dst: array<real>, base: nat, img: Image, width: nat, height: nat, bgr2rgb: bool, c: nat)
    requires IsImage(img, height, width) && c < 3 && base + 3 * (height * width) <= dst.Length
    modifies dst
    ensures forall i :: 0 <= i < height * width ==>
      dst[PlaneIndex(base, height * width, c, i)] == PlaneValue(img, width, height, bgr2rgb, c, i)
    ensures forall k :: 0 <= k < dst.Length && !(base + c * (height * width) <= k < base + c * (height * width) + height * width) ==>
      dst[k] == old(dst[k])
  {
    var hw := height * width;
    for i := 0 to hw
      invariant forall j :: 0 <= j < i ==> dst[PlaneIndex(base, hw, c, j)] == PlaneValue(img, width, height, bgr2rgb, c, j)
      invariant forall k :: 0 <= k < dst.Length && !(base + c * hw <= k < base + c * hw + hw) ==> dst[k] == old(dst[k])
    {
      dst[PlaneIndex(base, hw, c, i)] := PlaneValue(img, width, height, bgr2rgb, c, i);
    }
  }

  method ConvertAndNormalize(img: Image, dst: array<real>, base: nat, width: nat, height: nat, bgr2rgb: bool)
    requires IsImage(img, height, width) && base + 3 * (height * width) <= dst.Length
    modifies dst
    ensures IsPlanar(dst[..], base, img, width, height, bgr2rgb)
    ensures forall c: nat, y: nat, x: nat {:trigger ChannelValue(img, y, x, bgr2rgb, c)} :: c < 3 && y < height && x < width ==>
      var k := base + c * (height * width) + (y * width + x);
      k < dst.Length && dst[k] == ChannelValue(img, y, x, bgr2rgb, c)
    ensures forall k :: 0 <= k < dst.Length && !(base <= k < base + 3 * (height * width)) ==> dst[k] == old(dst[k])
  {
    FillPlane(dst, base, img, width, height, bgr2rgb, 0);
    FillPlane(dst, base, img, width, height, bgr2rgb, 1);
    FillPlane(dst, base, img, width, height, bgr2rgb, 2);
    forall c: nat, y: nat, x: nat {:trigger ChannelValue(img, y, x, bgr2rgb, c)} | c < 3 && y < height && x < width
      ensures var k := base + c * (height * width) + (y * width + x);
        k < dst.Length && dst[k] == ChannelValue(img, y, x, bgr2rgb, c)
    {
      PlanarCell(dst[..], base, img, width, height, bgr2rgb, c, y, x);
    }
  }

  datatype Preprocessed = Filled(params: Params) | Thrown

  /** Preprocess into slot 0 of the buffer; a target smaller than the image throws before anything is written. */
  method Preprocess(img: Image, rows: nat, cols: nat, buf: array<real>, width: nat, height: nat, color: Pixel, bgr2rgb: bool)
    returns (r: Preprocessed)
    requires IsImage(img, rows, cols) && 3 * (height * width) <= buf.Length
    modifies buf
    ensures r.Filled? <==> cols <= width && rows <= height
    ensures r.Thrown? ==> buf[..] == old(buf[..])
    ensures var padded := PadToSize(SwapChannels(img, rows, cols), rows, cols, width, height, color);
      r.Filled? ==> padded.Ok? && r.params == padded.params && IsPlanar(buf[..], 0, padded.img, width, height, bgr2rgb)
  {
    var rgb := SwapChannels(img, rows, cols);
    var padded := PadToSize(rgb, rows, cols, width, height, color);
    PaddingKeepsImage(rgb, rows, cols, width, height, color);
    if padded.TooSmall? {
      return Thrown;
    }
    ConvertAndNormalize(padded.img, buf, 0, width, height, bgr2rgb);
    return Filled(padded.params);
  }

  // ---------- back to an image ----------

  function MaxReal(a: real, b: real): real {
    if a < b then b else a
  }

  /** Clamp to [0, 1], scale and truncate. */
  function Quantised(v: real): (b: Byte) {
    var u := MaxReal(0.0, MinReal(1.0, v));
    (u * 255.0 + 0.5).Floor
  }

  /** Values outside [0, 1] saturate, and a value inside gives the byte nearest to 255 times it. */
  lemma QuantiseNearest(v: real, b: Byte)
    ensures 0.0 <= v <= 1.0 ==> (Quantised(v) == b <==> b as real - 0.5 <= v * 255.0 < b as real + 0.5)
    ensures v <= 0.0 ==> Quantised(v) == 0
    ensures v >= 1.0 ==> Quantised(v) == 255
  {
    var u := MaxReal(0.0, MinReal(1.0, v));
    var q := Quantised(v);
    assert q as real <= u * 255.0 + 0.5 < q as real + 1.0;
    if 0.0 <= v <= 1.0 && b as real - 0.5 <= v * 255.0 < b as real + 0.5 {
      assert q < b + 1 && b < q + 1;
    }
  }

  /** Quantising undoes the normalisation of a byte, with room for an error of less than half a step. */
  lemma QuantiseInverts(b: Byte, error: real)
    requires -0.5 < error * 255.0 < 0.5
    ensures Quantised(b as real / 255.0 + error) == b
  {
    var v := b as real / 255.0 + error;
    assert v * 255.0 == b as real + error * 255.0;
    QuantiseNearest(v, b);
  }

  /** The slot's image of the recorded size, cut out of its planes at the recorded offset. */
  ghost predicate Fits(p: Params, width: nat, height: nat) {
    p.padLeft + p.origW <= width && p.padTop + p.origH <= height
  }

  function CropIndex(p: Params, width: nat, height: nat, h: nat, w: nat): (i: nat)
    requires Fits(p, width, height) && h < p.origH && w < p.origW
    ensures i < height * width
  {
    CellInRange(h + p.padTop, height, p.padLeft + w, width);
    (h + p.padTop) * width + p.padLeft + w
  }

  function CropPixel(buf: seq<real>, base: nat, p: Params, width: nat, height: nat, h: nat, w: nat): Pixel
    requires Fits(p, width, height) && h < p.origH && w < p.origW && base + 3 * (height * width) <= |buf|
  {
    var hw, i := height * width, CropIndex(p, width, height, h, w);
    Pixel(Quantised(buf[PlaneIndex(base, hw, 2, i)]), Quantised(buf[PlaneIndex(base, hw, 1, i)]),
          Quantised(buf[PlaneIndex(base, hw, 0, i)]))
  }

  function Cropped(buf: seq<real>, base: nat, p: Params, width: nat, height: nat): (r: Image)
    requires Fits(p, width, height) && base + 3 * (height * width) <= |buf|
    ensures IsImage(r, p.origH, p.origW)
  {
    seq(p.origH, h requires 0 <= h < p.origH =>
      seq(p.origW, w requires 0 <= w < p.origW => CropPixel(buf, base, p, width, height, h, w)))
  }

  /** The nested loops of postprocess for one slot. */
  method CropLoop(buf: seq<real>, base: nat, p: Params, width: nat, height: nat) returns (result: Image)
    requires Fits(p, width, height) && base + 3 * (height * width) <= |buf|
    ensures result == Cropped(buf, base, p, width, height)
  {
    result := [];
    for h := 0 to p.origH
      invariant result == Cropped(buf, base, p, width, height)[..h]
    {
      var row: seq<Pixel> := [];
      for w := 0 to p.origW
        invariant row == Cropped(buf, base, p, width, height)[h][..w]
      {
        row := row + [CropPixel(buf, base, p, width, height, h, w)];
      }
      assert row == Cropped(buf, base, p, width, height)[h];
      result := result + [row];
    }
  }

  /** Postprocess of a whole batch: slot i's planes start at i * 3 * height * width. */
  method Postprocess(buf: seq<real>, params: seq<Params>, width: nat, height: nat) returns (images: seq<Image>)
    requires |params| * (3 * (height * width)) <= |buf|
    requires forall i :: 0 <= i < |params| ==> Fits(params[i], width, height)
    ensures |images| == |params|
    ensures forall i :: 0 <= i < |params| ==>
      i * (3 * (height * width)) + 3 * (height * width) <= |buf|
      && images[i] == Cropped(buf, i * (3 * (height * width)), params[i], width, height)
  {
    images := [];
    for i := 0 to |params|
      invariant |images| == i
      invariant forall k :: 0 <= k < i ==>
        k * (3 * (height * width)) + 3 * (height * width) <= |buf|
        && images[k] == Cropped(buf, k * (3 * (height * width)), params[k], width, height)
    {
      SlotInRange(i, |params|, 3 * (height * width));
      var image := CropLoop(buf, i * (3 * (height * width)), params[i], width, height);
      images := images + [image];
    }
  }

  lemma SlotInRange(i: nat, n: nat, plane: nat)
    requires i < n
    ensures i * plane + plane <= n * plane
  {
    MulMonotone(i + 1, n, plane);
    assert (i + 1) * plane == i * plane + plane;
  }

  // ---------- the round trip ----------

  /** What the identity network gives back. */
  function RoundTrip(img: Image, rows: nat, cols: nat, bgr2rgb: bool): Image
    requires IsImage(img, rows, cols)
  {
    if bgr2rgb then SwapChannels(img, rows, cols) else img
  }

  lemma ByteSurvives(img: Image, width: nat, height: nat, bgr2rgb: bool, c: nat, i: nat, buf: seq<real>)
    requires NearPlanar(buf, 0, img, width, height, bgr2rgb) && c < 3 && i < height * width
    ensures width > 0 && i / width < height
    ensures var p := img[i / width][i % width];
      Quantised(buf[PlaneIndex(0, height * width, c, i)]) == Channel(if bgr2rgb then Swapped(p) else p, c)
  {
    RowOfIndex(i, width, height);
    var p := img[i / width][i % width];
    var value := PlaneValue(img, width, height, bgr2rgb, c, i);
    QuantiseInverts(Channel(if bgr2rgb then Swapped(p) else p, c), buf[PlaneIndex(0, height * width, c, i)] - value);
  }

  lemma PixelRoundTrips(img: Image, rows: nat, cols: nat, buf: seq<real>, width: nat, height: nat, color: Pixel, bgr2rgb: bool,
                        h: nat, w: nat)
    requires IsImage(img, rows, cols) && cols <= width && rows <= height && h < rows && w < cols
    requires var padded := PadToSize(SwapChannels(img, rows, cols), rows, cols, width, height, color);
      NearPlanar(buf, 0, padded.img, width, height, bgr2rgb)
    ensures var p := PadToSize(SwapChannels(img, rows, cols), rows, cols, width, height, color).params;
      && Fits(p, width, height) && h < p.origH && w < p.origW
      && CropPixel(buf, 0, p, width, height, h, w) == if bgr2rgb then Swapped(img[h][w]) else img[h][w]
  {
    var rgb := SwapChannels(img, rows, cols);
    var padded := PadToSize(rgb, rows, cols, width, height, color);
    PaddingKeepsImage(rgb, rows, cols, width, height, color);
    var p := padded.params;
    var i := CropIndex(p, width, height, h, w);
    ModUnique(i, width, h + p.padTop, p.padLeft + w);
    var q := if bgr2rgb then Swapped(rgb[h][w]) else rgb[h][w];
    assert padded.img[i / width][i % width] == rgb[h][w];
    ByteSurvives(padded.img, width, height, bgr2rgb, 0, i, buf);
    ByteSurvives(padded.img, width, height, bgr2rgb, 1, i, buf);
    ByteSurvives(padded.img, width, height, bgr2rgb, 2, i, buf);
    assert q == Pixel(Channel(q, 0), Channel(q, 1), Channel(q, 2));
  }

  /** With a network that returns its input, up to an error of less than half a quantisation step, every image that fits the
      target comes back pixel for pixel, with red and blue exchanged when bgr2rgb is set: preprocess then swaps twice and
      postprocess once. */
  lemma IdentityRoundTrip(img: Image, rows: nat, cols: nat, buf: seq<real>, width: nat, height: nat, color: Pixel, bgr2rgb: bool)
    requires IsImage(img, rows, cols) && cols <= width && rows <= height
    requires var padded := PadToSize(SwapChannels(img, rows, cols), rows, cols, width, height, color);
      NearPlanar(buf, 0, padded.img, width, height, bgr2rgb)
    ensures var p := PadToSize(SwapChannels(img, rows, cols), rows, cols, width, height, color).params;
      Fits(p, width, height) && Cropped(buf, 0, p, width, height) == RoundTrip(img, rows, cols, bgr2rgb)
  {
    var p := PadToSize(SwapChannels(img, rows, cols), rows, cols, width, height, color).params;
    PaddingKeepsImage(SwapChannels(img, rows, cols), rows, cols, width, height, color);
    var out, expected := Cropped(buf, 0, p, width, height), RoundTrip(img, rows, cols, bgr2rgb);
    forall h | 0 <= h < rows
      ensures out[h] == expected[h]
    {
      forall w | 0 <= w < cols
        ensures out[h][w] == expected[h][w]
      {
        PixelRoundTrips(img, rows, cols, buf, width, height, color, bgr2rgb, h, w);
      }
    }
  }

  /** So the image itself comes back exactly when bgr2rgb is off or the image has equal red and blue everywhere. */
  lemma RoundTripIsIdentityIff(img: Image, rows: nat, cols: nat, bgr2rgb: bool)
    requires IsImage(img, rows, cols)
    ensures RoundTrip(img, rows, cols, bgr2rgb) == img <==>
            !bgr2rgb || forall h, w :: 0 <= h < rows && 0 <= w < cols ==> img[h][w].c0 == img[h][w].c2
  {
    var swapped := SwapChannels(img, rows, cols);
    if bgr2rgb && swapped == img {
      forall h, w | 0 <= h < rows && 0 <= w < cols
        ensures img[h][w].c0 == img[h][w].c2
      {
        assert swapped[h][w] == Swapped(img[h][w]);
      }
    }
    if forall h, w :: 0 <= h < rows && 0 <= w < cols ==> img[h][w].c0 == img[h][w].c2 {
      forall h | 0 <= h < rows
        ensures swapped[h] == img[h]
      {
      }
    }
  }

  /** The whole pass through slot 0 of a batch buffer; a slot whose params are still the default yields an empty image. */
  method RestoreWithIdentity(img: Image, rows: nat, cols: nat, buf: array<real>, batch: nat, width: nat, height: nat,
                             color: Pixel, bgr2rgb: bool) returns (images: seq<Image>)
    requires IsImage(img, rows, cols) && cols <= width && rows <= height
    requires batch > 0 && batch * (3 * (height * width)) <= buf.Length
    modifies buf
    ensures |images| == batch && images[0] == RoundTrip(img, rows, cols, bgr2rgb)
    ensures forall i :: 0 < i < batch ==> images[i] == []
  {
    SlotInRange(0, batch, 3 * (height * width));
    var filled := Preprocess(img, rows, cols, buf, width, height, color, bgr2rgb);
    var params := seq(batch, i => if i == 0 then filled.params else Params(0, 0, 0, 0));
    IdentityRoundTrip(img, rows, cols, buf[..], width, height, color, bgr2rgb);
    images := Postprocess(buf[..], params, width, height);
  }
}
