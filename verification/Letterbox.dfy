/** src/preprocess/utils.cpp (letterbox_resize) and the same arithmetic in src/runner/detect/YoloDetector.cpp
    (preprocess), with reals for the floats. */
module Letterbox {
  import opened Arithmetic

  const STRIDE := 32

  /** std::round: half away from zero. */
  function Round(x: real): int {
    if x >= 0.0 then (x + 0.5).Floor else -((-x + 0.5).Floor)
  }

  datatype Params = Params(scale: real, padLeft: int, padTop: int, origW: nat, origH: nat)

  /** The resized size and the border added around it. */
  datatype Layout = Layout(params: Params, newW: int, newH: int, padRight: int, padBottom: int)

  /** cv::resize refuses an empty size. */
  datatype Result = Ok(layout: Layout) | EmptyResize

  function FitScale(w: nat, h: nat, targetW: nat, targetH: nat): real
    requires w > 0 && h > 0
  {
    MinReal(targetW as real / w as real, targetH as real / h as real)
  }

  function ScaledSize(side: nat, scale: real): int {
    Round(side as real * scale)
  }

  /** The C++ remainder of a non-negative size. */
  function AlignDown(size: int): int
    requires size >= 0
  {
    size - size % STRIDE
  }

  lemma ScaledSizeNonNegative(side: nat, scale: real)
    requires scale >= 0.0
    ensures ScaledSize(side, scale) >= 0
  {
    assert side as real * scale >= 0.0;
  }

  function Scale(w: nat, h: nat, targetW: nat, targetH: nat, align: bool): (s: real)
    requires w > 0 && h > 0
    ensures s >= 0.0
  {
    RatioPositive(targetW, w);
    RatioPositive(targetH, h);
    var scale := FitScale(w, h, targetW, targetH);
    if !align then scale
    else
      ScaledSizeNonNegative(w, scale);
      ScaledSizeNonNegative(h, scale);
      RatioPositive(AlignDown(ScaledSize(w, scale)), w);
      RatioPositive(AlignDown(ScaledSize(h, scale)), h);
      MinReal(AlignDown(ScaledSize(w, scale)) as real / w as real, AlignDown(ScaledSize(h, scale)) as real / h as real)
  }

  function LetterboxResize(w: nat, h: nat, targetW: nat, targetH: nat, align: bool): Result
    requires w > 0 && h > 0
  {
    var scale := Scale(w, h, targetW, targetH, align);
    var newW, newH := ScaledSize(w, scale), ScaledSize(h, scale);
    if newW <= 0 || newH <= 0 then EmptyResize
    else
      var padLeft, padTop := Halved(targetW - newW), Halved(targetH - newH);
      Ok(Layout(Params(scale, padLeft, padTop, w, h), newW, newH, targetW - newW - padLeft, targetH - newH - padTop))
  }

  /** Integer division by two, truncating. */
  function Halved(x: int): int {
    if x >= 0 then x / 2 else -((-x) / 2)
  }

  // ---------- real arithmetic ----------

  lemma QuotientTimes(a: real, b: real)
    requires b != 0.0
    ensures b * (a / b) == a && (a / b) * b == a
  {
  }

  lemma ScaleSideMonotone(side: nat, s: real, t: real)
    requires s <= t
    ensures side as real * s <= side as real * t
  {
    assert side as real * (t - s) >= 0.0;
  }

  lemma RoundMonotone(x: real, y: real)
    requires 0.0 <= x <= y
    ensures Round(x) <= Round(y)
  {
  }

  /** A scale no larger than limit / side keeps the scaled side within the limit; that very scale attains it. */
  lemma ScaledWithin(side: nat, limit: nat, scale: real)
    requires side > 0 && 0.0 <= scale <= limit as real / side as real
    ensures 0 <= ScaledSize(side, scale) <= limit
    ensures scale == limit as real / side as real ==> ScaledSize(side, scale) == limit
  {
    QuotientTimes(limit as real, side as real);
    ScaleSideMonotone(side, scale, limit as real / side as real);
    ScaleSideMonotone(side, 0.0, scale);
    RoundMonotone(side as real * scale, limit as real);
  }

  lemma FitScaleWithin(w: nat, h: nat, targetW: nat, targetH: nat)
    requires w > 0 && h > 0
    ensures var s := FitScale(w, h, targetW, targetH);
      0 <= ScaledSize(w, s) <= targetW && 0 <= ScaledSize(h, s) <= targetH
  {
    ScaledWithin(w, targetW, FitScale(w, h, targetW, targetH));
    ScaledWithin(h, targetH, FitScale(w, h, targetW, targetH));
  }

  /** The sizes after alignment. */
  function AlignedW(w: nat, h: nat, targetW: nat, targetH: nat): (n: nat)
    requires w > 0 && h > 0
    ensures n % STRIDE == 0 && n <= targetW
  {
    FitScaleWithin(w, h, targetW, targetH);
    AlignDown(ScaledSize(w, FitScale(w, h, targetW, targetH)))
  }

  function AlignedH(w: nat, h: nat, targetW: nat, targetH: nat): (n: nat)
    requires w > 0 && h > 0
    ensures n % STRIDE == 0 && n <= targetH
  {
    FitScaleWithin(w, h, targetW, targetH);
    AlignDown(ScaledSize(h, FitScale(w, h, targetW, targetH)))
  }

  /** With stride alignment neither side exceeds its aligned size, and the side whose ratio is the smaller one attains it:
      that side is a multiple of 32. */
  lemma AlignedAxis(w: nat, h: nat, targetW: nat, targetH: nat)
    requires w > 0 && h > 0
    ensures var s := Scale(w, h, targetW, targetH, true);
      var (aw, ah) := (AlignedW(w, h, targetW, targetH), AlignedH(w, h, targetW, targetH));
      && 0 <= ScaledSize(w, s) <= aw && 0 <= ScaledSize(h, s) <= ah
      && (aw as real / w as real <= ah as real / h as real ==> ScaledSize(w, s) == aw)
      && (ah as real / h as real <= aw as real / w as real ==> ScaledSize(h, s) == ah)
  {
    var s := Scale(w, h, targetW, targetH, true);
    ScaledWithin(w, AlignedW(w, h, targetW, targetH), s);
    ScaledWithin(h, AlignedH(w, h, targetW, targetH), s);
  }

  /** The resized image fits the target, the border is never negative, border and image fill the target exactly, and opposite
      borders differ by at most one pixel, the right and bottom ones being the larger. */
  lemma LayoutFillsTarget(w: nat, h: nat, targetW: nat, targetH: nat, align: bool)
    requires w > 0 && h > 0 && LetterboxResize(w, h, targetW, targetH, align).Ok?
    ensures var l := LetterboxResize(w, h, targetW, targetH, align).layout;
      && 0 < l.newW <= targetW && 0 < l.newH <= targetH
      && 0 <= l.params.padLeft <= l.padRight <= l.params.padLeft + 1
      && 0 <= l.params.padTop <= l.padBottom <= l.params.padTop + 1
      && l.params.padLeft + l.newW + l.padRight == targetW
      && l.params.padTop + l.newH + l.padBottom == targetH
      && l.params.scale > 0.0 && l.params.origW == w && l.params.origH == h
      && (align ==> l.newW % STRIDE == 0 || l.newH % STRIDE == 0)
  {
    if align {
      AlignedAxis(w, h, targetW, targetH);
    } else {
      FitScaleWithin(w, h, targetW, targetH);
    }
    var s := Scale(w, h, targetW, targetH, align);
    ZeroScale(w);
  }

  lemma ZeroScale(side: nat)
    ensures ScaledSize(side, 0.0) == 0
  {
    assert side as real * 0.0 == 0.0;
  }

  /** Without alignment the resize succeeds exactly when neither side shrinks below half a pixel: 2 w targetH >= h and
      2 h targetW >= w. */
  lemma PlainResizeOkIff(w: nat, h: nat, targetW: nat, targetH: nat)
    requires w > 0 && h > 0
    ensures LetterboxResize(w, h, targetW, targetH, false).Ok? <==> 2 * (w * targetH) >= h && 2 * (h * targetW) >= w
  {
    if targetW as real / w as real < targetH as real / h as real {
      LimitingSide(w, h, targetW, targetH);
    } else {
      LimitingSide(h, w, targetH, targetW);
    }
  }

  /** One axis sets the scale, target / side; the other side is `other`, with its own target. */
  lemma LimitingSide(side: nat, other: nat, target: nat, otherTarget: nat)
    requires side > 0 && other > 0 && target as real / side as real <= otherTarget as real / other as real
    ensures var scale := target as real / side as real;
      ScaledSize(side, scale) > 0 && ScaledSize(other, scale) > 0 <==> 2 * (side * otherTarget) >= other && 2 * (other * target) >= side
  {
    QuotientTimes(target as real, side as real);
    SideSurvivesIff(other, side, target);
    CrossProducts(side, other, target, otherTarget);
    if target > 0 {
      MulMonotone(1, target, other);
      assert target * other == other * target;
    } else {
      assert other * target == 0;
    }
  }

  lemma CrossProducts(side: nat, other: nat, target: nat, otherTarget: nat)
    requires side > 0 && other > 0 && target as real / side as real <= otherTarget as real / other as real
    ensures other * target <= side * otherTarget
  {
    var small, large := target as real / side as real, otherTarget as real / other as real;
    QuotientTimes(target as real, side as real);
    QuotientTimes(otherTarget as real, other as real);
    ScaleSideMonotone(side * other, small, large);
    assert (side * other) as real * small == other as real * (side as real * small);
    assert (side * other) as real * large == side as real * (other as real * large);
    assert (other * target) as real == other as real * target as real;
    assert (side * otherTarget) as real == side as real * otherTarget as real;
  }

  /** A side scaled by target / of keeps at least one pixel. */
  lemma SideSurvivesIff(side: nat, of: nat, target: nat)
    requires of > 0
    ensures ScaledSize(side, target as real / of as real) > 0 <==> 2 * (side * target) >= of
  {
    var x := side as real * (target as real / of as real);
    RatioPositive(target, of);
    ScaleSideMonotone(side, 0.0, target as real / of as real);
    ScaledBack(side, of, target);
    RoundPositiveIff(x);
    HalfIff(x, of, side * target);
  }

  lemma ScaledBack(side: nat, of: nat, target: nat)
    requires of > 0
    ensures side as real * (target as real / of as real) * of as real == (side * target) as real
  {
    var ratio := target as real / of as real;
    QuotientTimes(target as real, of as real);
    assert side as real * ratio * of as real == side as real * (ratio * of as real);
  }

  lemma RoundPositiveIff(x: real)
    requires x >= 0.0
    ensures Round(x) > 0 <==> x >= 0.5
  {
  }

  lemma HalfIff(x: real, of: nat, n: nat)
    requires of > 0 && x * of as real == n as real
    ensures x >= 0.5 <==> 2 * n >= of
  {
    if x >= 0.5 {
      assert (x - 0.5) * of as real >= 0.0;
    } else {
      assert (0.5 - x) * of as real > 0.0;
    }
  }

  /** With alignment the resize succeeds, and its scale is positive, exactly when both sizes are at least one stride before
      they are aligned. */
  lemma AlignedResizeOkIff(w: nat, h: nat, targetW: nat, targetH: nat)
    requires w > 0 && h > 0
    ensures var s := FitScale(w, h, targetW, targetH);
      var big := ScaledSize(w, s) >= STRIDE && ScaledSize(h, s) >= STRIDE;
      && (LetterboxResize(w, h, targetW, targetH, true).Ok? <==> big)
      && (Scale(w, h, targetW, targetH, true) > 0.0 <==> big)
  {
    FitScaleWithin(w, h, targetW, targetH);
    var s0, s := FitScale(w, h, targetW, targetH), Scale(w, h, targetW, targetH, true);
    RatioPositive(AlignedW(w, h, targetW, targetH), w);
    RatioPositive(AlignedH(w, h, targetW, targetH), h);
    ZeroScale(w);
    if ScaledSize(w, s0) >= STRIDE && ScaledSize(h, s0) >= STRIDE {
      AlignmentHalvesAtMost(w, s0);
      AlignmentHalvesAtMost(h, s0);
      HalfScaleKeepsSide(w, s0, s);
      HalfScaleKeepsSide(h, s0, s);
    } else {
      assert s == 0.0;
      ZeroScale(h);
    }
  }

  lemma HalfScaleKeepsSide(side: nat, scale: real, smaller: real)
    requires side > 0 && 0.0 <= scale / 2.0 <= smaller && ScaledSize(side, scale) >= STRIDE
    ensures ScaledSize(side, smaller) > 0 && smaller > 0.0
  {
    ScaleSideMonotone(side, scale / 2.0, smaller);
    assert side as real * (scale / 2.0) == side as real * scale / 2.0;
    ZeroScale(side);
  }

  /** Aligning down a size of at least one stride keeps at least half of it, hence at least half the scale. */
  lemma AlignmentHalvesAtMost(side: nat, scale: real)
    requires side > 0 && scale >= 0.0 && ScaledSize(side, scale) >= STRIDE
    ensures AlignDown(ScaledSize(side, scale)) as real / side as real >= scale / 2.0
  {
    ScaledSizeNonNegative(side, scale);
    var n, x := ScaledSize(side, scale), side as real * scale;
    assert 2 * AlignDown(n) >= n + 1;
    assert AlignDown(n) as real >= x / 2.0;
    QuotientTimes(AlignDown(n) as real, side as real);
    ScaleSideReflects(side, scale / 2.0, AlignDown(n) as real / side as real);
  }

  lemma ScaleSideReflects(side: nat, s: real, t: real)
    requires side > 0
    ensures s <= t <==> side as real * s <= side as real * t
  {
    assert side as real * (t - s) == side as real * t - side as real * s;
    if s > t {
      assert side as real * (s - t) > 0.0;
    }
  }

  lemma RatioPositive(a: nat, b: nat)
    requires b > 0
    ensures a as real / b as real > 0.0 <==> a > 0
    ensures a as real / b as real >= 0.0
  {
    QuotientTimes(a as real, b as real);
  }

  // ---------- the sizes ----------

  lemma RatiosOrdered(side: nat, other: nat, target: nat, otherTarget: nat)
    requires side > 0 && other > 0
    ensures target * other <= otherTarget * side <==> target as real / side as real <= otherTarget as real / other as real
  {
    var p, q := target as real / side as real, otherTarget as real / other as real;
    QuotientTimes(target as real, side as real);
    QuotientTimes(otherTarget as real, other as real);
    ScaleSideReflects(side * other, p, q);
    ScaledProducts(side as real, other as real, p, target as real);
    ScaledProducts(other as real, side as real, q, otherTarget as real);
    assert (side * other) as real == side as real * other as real == other as real * side as real;
    assert (target * other) as real == target as real * other as real;
    assert (otherTarget * side) as real == otherTarget as real * side as real;
  }

  lemma ScaledProducts(a: real, b: real, p: real, t: real)
    requires a * p == t
    ensures (a * b) * p == t * b
  {
    assert (a * b) * p == (a * p) * b;
  }

  /** The size of a side scaled by target / of. */
  lemma ScaledSide(side: nat, of: nat, target: nat)
    requires of > 0
    ensures ScaledSize(side, target as real / of as real) == Round((side * target) as real / of as real)
  {
    ScaledBack(side, of, target);
    QuotientTimes((side * target) as real, of as real);
    SameQuotient(side as real * (target as real / of as real), (side * target) as real / of as real, of as real);
  }

  lemma SameQuotient(x: real, y: real, b: real)
    requires b > 0.0 && x * b == y * b
    ensures x == y
  {
    assert (x - y) * b == 0.0;
  }

  /** A side that reaches its target and so sets the scale, and the other side, which keeps the image's ratio. */
  predicate Reaches(side: nat, other: nat, target: nat, newSide: int, newOther: int, scale: real)
    requires side > 0
  {
    newSide == target && newOther == Round((other * target) as real / side as real) && scale * side as real == target as real
  }

  /** A scale and the sizes it gives: the side whose target is the tighter reaches it. */
  predicate Fitted(w: nat, h: nat, targetW: nat, targetH: nat, newW: int, newH: int, scale: real)
    requires w > 0 && h > 0
  {
    && (targetW * h <= targetH * w ==> Reaches(w, h, targetW, newW, newH, scale))
    && (targetH * w <= targetW * h ==> Reaches(h, w, targetH, newH, newW, scale))
  }

  /** One axis sets the scale. */
  lemma TighterAxis(side: nat, other: nat, target: nat)
    requires side > 0 && other > 0
    ensures var s := target as real / side as real; Reaches(side, other, target, ScaledSize(side, s), ScaledSize(other, s), s)
  {
    QuotientTimes(target as real, side as real);
    ScaledSide(other, side, target);
    RatioPositive(target, side);
    ScaledWithin(side, target, target as real / side as real);
  }

  lemma TighterScale(w: nat, h: nat, targetW: nat, targetH: nat)
    requires w > 0 && h > 0
    ensures targetW * h <= targetH * w ==> FitScale(w, h, targetW, targetH) == targetW as real / w as real
    ensures targetH * w <= targetW * h ==> FitScale(w, h, targetW, targetH) == targetH as real / h as real
  {
    RatiosOrdered(w, h, targetW, targetH);
    RatiosOrdered(h, w, targetH, targetW);
  }

  lemma FittedSizes(w: nat, h: nat, targetW: nat, targetH: nat)
    requires w > 0 && h > 0
    ensures var s := FitScale(w, h, targetW, targetH);
      Fitted(w, h, targetW, targetH, ScaledSize(w, s), ScaledSize(h, s), s)
  {
    TighterScale(w, h, targetW, targetH);
    TighterAxis(w, h, targetW);
    TighterAxis(h, w, targetH);
  }

  /** Without alignment the image is fitted to the target. */
  lemma PlainSizes(w: nat, h: nat, targetW: nat, targetH: nat)
    requires w > 0 && h > 0 && LetterboxResize(w, h, targetW, targetH, false).Ok?
    ensures var l := LetterboxResize(w, h, targetW, targetH, false).layout;
      Fitted(w, h, targetW, targetH, l.newW, l.newH, l.params.scale)
  {
    FittedSizes(w, h, targetW, targetH);
  }

  /** The greatest multiple of 32 that is no greater. */
  function DownTo32(n: int): (m: int)
    ensures m % 32 == 0 && m <= n < m + 32 && (n >= 0 ==> m >= 0)
  {
    32 * (n / 32)
  }

  /** With alignment it is fitted to a smaller target: the sizes fitted to the given one, each cut down to a multiple of 32. */
  lemma AlignedSizes(w: nat, h: nat, targetW: nat, targetH: nat) returns (firstW: int, firstH: int, first: real)
    requires w > 0 && h > 0 && LetterboxResize(w, h, targetW, targetH, true).Ok?
    ensures Fitted(w, h, targetW, targetH, firstW, firstH, first) && firstW >= 0 && firstH >= 0
    ensures var l := LetterboxResize(w, h, targetW, targetH, true).layout;
      Fitted(w, h, DownTo32(firstW), DownTo32(firstH), l.newW, l.newH, l.params.scale)
  {
    FittedSizes(w, h, targetW, targetH);
    FitScaleWithin(w, h, targetW, targetH);
    first := FitScale(w, h, targetW, targetH);
    firstW, firstH := ScaledSize(w, first), ScaledSize(h, first);
    FittedSizes(w, h, DownTo32(firstW), DownTo32(firstH));
  }

  /** So with alignment the resize succeeds exactly when the target has 32 pixels each way and neither side shrinks below 31.5. */
  lemma AlignedResizeOkByTarget(w: nat, h: nat, targetW: nat, targetH: nat)
    requires w > 0 && h > 0
    ensures LetterboxResize(w, h, targetW, targetH, true).Ok? <==>
      targetW >= 32 && targetH >= 32 && 2 * (h * targetW) >= 63 * w && 2 * (w * targetH) >= 63 * h
  {
    AlignedResizeOkIff(w, h, targetW, targetH);
    FittedSizes(w, h, targetW, targetH);
    if targetW * h <= targetH * w {
      StrideSurvives(w, h, targetW, targetH);
    } else {
      StrideSurvives(h, w, targetH, targetW);
    }
  }

  lemma StrideSurvives(side: nat, other: nat, target: nat, otherTarget: nat)
    requires side > 0 && other > 0 && target * other <= otherTarget * side
    ensures target >= 32 && Round((other * target) as real / side as real) >= 32 <==>
      target >= 32 && otherTarget >= 32 && 2 * (other * target) >= 63 * side && 2 * (side * otherTarget) >= 63 * other
  {
    RoundAtLeast(other * target, side);
    if target >= 32 && 2 * (other * target) >= 63 * side {
      MulMonotone(32, target, other);
      assert 2 * (side * otherTarget) >= 63 * side;
      if otherTarget < 32 {
        MulMonotone(otherTarget, 31, side);
      }
    }
  }

  lemma RoundAtLeast(n: nat, d: nat)
    requires d > 0
    ensures Round(n as real / d as real) >= 32 <==> 2 * n >= 63 * d
  {
    var x := n as real / d as real;
    QuotientTimes(n as real, d as real);
    RatioPositive(n, d);
    assert Round(x) >= 32 <==> x >= 31.5;
    if x >= 31.5 {
      assert (x - 31.5) * d as real >= 0.0;
    } else {
      assert (31.5 - x) * d as real > 0.0;
    }
  }

  /** The kernel takes dst - 2 * pad for the width of the image area; that is the resized width exactly when the border is
      even, and one column too many otherwise. */
  lemma KernelAreaIff(w: nat, h: nat, targetW: nat, targetH: nat, align: bool)
    requires w > 0 && h > 0 && LetterboxResize(w, h, targetW, targetH, align).Ok?
    ensures var l := LetterboxResize(w, h, targetW, targetH, align).layout;
      && (targetW - 2 * l.params.padLeft == l.newW <==> (targetW - l.newW) % 2 == 0)
      && l.newW <= targetW - 2 * l.params.padLeft <= l.newW + 1
      && (targetH - 2 * l.params.padTop == l.newH <==> (targetH - l.newH) % 2 == 0)
      && l.newH <= targetH - 2 * l.params.padTop <= l.newH + 1
  {
    LayoutFillsTarget(w, h, targetW, targetH, align);
  }
}
