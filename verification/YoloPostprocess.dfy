/** src/runner/detect/YoloDetector.cpp, postprocess: from network output to boxes in the original image, on the host after
    the CUDA filter and on the CPU alone, up to non-maximum suppression. */
module YoloPostprocess {
  import opened Candidates
  import opened GpuFilter
  import Letterbox

  type LetterboxParams = Letterbox.Params

  function Clamp(x: real, lo: real, hi: real): real {
    if x < lo then lo else if x > hi then hi else x
  }

  /** static_cast<int>: toward zero. */
  function Truncate(x: real): int {
    if x >= 0.0 then x.Floor else -((-x).Floor)
  }

  datatype Rect = Rect(x: int, y: int, w: int, h: int)

  datatype Detection = Detection(box: Rect, score: real, cls: int)

  /** A box side mapped back through the letterbox along one axis: `center + half - pad` over the scale, clamped. The slots of a
      partly filled batch that hold no image have scale 0; dividing by it gives an infinity, which is clamped to a bound (zero
      over zero is taken for the lower one). */
  function Side(center: real, half: real, pad: int, scale: real, limit: nat): real
    requires scale >= 0.0
  {
    var offset := center + half - pad as real;
    if scale > 0.0 then Clamp(offset / scale, 0.0, limit as real) else if offset > 0.0 then limit as real else 0.0
  }

  datatype Corners = Corners(x1: real, y1: real, x2: real, y2: real)

  function Decode(p: LetterboxParams, cx: real, cy: real, w: real, h: real): Corners
    requires p.scale >= 0.0
  {
    Corners(Side(cx, -0.5 * w, p.padLeft, p.scale, p.origW), Side(cy, -0.5 * h, p.padTop, p.scale, p.origH),
            Side(cx, 0.5 * w, p.padLeft, p.scale, p.origW), Side(cy, 0.5 * h, p.padTop, p.scale, p.origH))
  }

  function TruncatedRect(c: Corners): Rect {
    Rect(Truncate(c.x1), Truncate(c.y1), Truncate(c.x2 - c.x1), Truncate(c.y2 - c.y1))
  }

  function RoundedRect(c: Corners): Rect {
    Rect(Letterbox.Round(c.x1), Letterbox.Round(c.y1), Letterbox.Round(c.x2 - c.x1), Letterbox.Round(c.y2 - c.y1))
  }

  predicate IsEmpty(c: Corners) {
    c.x2 <= c.x1 || c.y2 <= c.y1
  }

  // ---------- decoding inverts the letterbox ----------

  /** Where the letterbox takes a coordinate of the original image. */
  function Forward(x: real, pad: int, scale: real): real {
    x * scale + pad as real
  }

  lemma SideInverts(x: real, center: real, half: real, pad: int, scale: real, limit: nat)
    requires scale > 0.0 && 0.0 <= x <= limit as real && center + half == Forward(x, pad, scale)
    ensures Side(center, half, pad, scale, limit) == x
  {
    assert (x * scale) / scale == x;
  }

  function Center(lo: real, hi: real, pad: int, scale: real): real {
    Forward((lo + hi) / 2.0, pad, scale)
  }

  function Size(lo: real, hi: real, scale: real): real {
    (hi - lo) * scale
  }

  /** A box inside the original image, mapped by the letterbox and described by center and size, decodes to itself. */
  lemma DecodeInvertsLetterbox(p: LetterboxParams, box: Corners)
    requires p.scale > 0.0
    requires 0.0 <= box.x1 <= box.x2 <= p.origW as real && 0.0 <= box.y1 <= box.y2 <= p.origH as real
    ensures Decode(p, Center(box.x1, box.x2, p.padLeft, p.scale), Center(box.y1, box.y2, p.padTop, p.scale),
                   Size(box.x1, box.x2, p.scale), Size(box.y1, box.y2, p.scale)) == box
  {
    AxisInverts(box.x1, box.x2, p.padLeft, p.scale, p.origW);
    AxisInverts(box.y1, box.y2, p.padTop, p.scale, p.origH);
    DecodeByAxis(p, Center(box.x1, box.x2, p.padLeft, p.scale), Center(box.y1, box.y2, p.padTop, p.scale),
                 Size(box.x1, box.x2, p.scale), Size(box.y1, box.y2, p.scale), box);
  }

  lemma DecodeByAxis(p: LetterboxParams, cx: real, cy: real, w: real, h: real, box: Corners)
    requires p.scale >= 0.0
    requires Side(cx, -0.5 * w, p.padLeft, p.scale, p.origW) == box.x1 && Side(cx, 0.5 * w, p.padLeft, p.scale, p.origW) == box.x2
    requires Side(cy, -0.5 * h, p.padTop, p.scale, p.origH) == box.y1 && Side(cy, 0.5 * h, p.padTop, p.scale, p.origH) == box.y2
    ensures Decode(p, cx, cy, w, h) == box
  {
  }

  lemma AxisInverts(lo: real, hi: real, pad: int, scale: real, limit: nat)
    requires scale > 0.0 && 0.0 <= lo <= hi <= limit as real
    ensures var c, size := Center(lo, hi, pad, scale), Size(lo, hi, scale);
      Side(c, -0.5 * size, pad, scale, limit) == lo && Side(c, 0.5 * size, pad, scale, limit) == hi
  {
    var c, size := Center(lo, hi, pad, scale), Size(lo, hi, scale);
    assert (lo + hi) / 2.0 * scale == (lo * scale + hi * scale) / 2.0;
    assert size == hi * scale - lo * scale;
    SideInverts(lo, c, -0.5 * size, pad, scale, limit);
    SideInverts(hi, c, 0.5 * size, pad, scale, limit);
  }

  // ---------- boxes against the image edge ----------

  lemma SidesOrdered(center: real, half: real, pad: int, scale: real, limit: nat)
    requires scale >= 0.0 && half >= 0.0
    ensures 0.0 <= Side(center, -half, pad, scale, limit) <= Side(center, half, pad, scale, limit) <= limit as real
  {
    if scale > 0.0 {
      QuotientMonotone(center - half - pad as real, center + half - pad as real, scale);
    }
  }

  lemma QuotientMonotone(a: real, b: real, s: real)
    requires s > 0.0 && a <= b
    ensures a / s <= b / s
  {
    assert (b - a) / s >= 0.0;
    assert (b - a) / s == b / s - a / s;
  }

  /** Truncation keeps every box of non-negative size inside the original image. */
  lemma TruncatedRectInside(p: LetterboxParams, cx: real, cy: real, w: real, h: real)
    requires p.scale >= 0.0 && w >= 0.0 && h >= 0.0
    ensures var r := TruncatedRect(Decode(p, cx, cy, w, h));
      && 0 <= r.x && 0 <= r.w && r.x + r.w <= p.origW
      && 0 <= r.y && 0 <= r.h && r.y + r.h <= p.origH
  {
    SidesOrdered(cx, 0.5 * w, p.padLeft, p.scale, p.origW);
    SidesOrdered(cy, 0.5 * h, p.padTop, p.scale, p.origH);
  }

  /** Rounding leaves the image by one pixel at most, and on an axis it does so exactly when the box ends on the image edge
      and begins halfway between two pixels. */
  lemma RoundedOvershootIff(lo: real, hi: real, limit: nat)
    requires 0.0 <= lo < hi <= limit as real
    ensures 0 <= Letterbox.Round(lo) && 0 <= Letterbox.Round(hi - lo)
    ensures Letterbox.Round(lo) + Letterbox.Round(hi - lo) <= limit + 1
    ensures Letterbox.Round(lo) + Letterbox.Round(hi - lo) > limit <==> hi == limit as real && lo == lo.Floor as real + 0.5
  {
    var a, f := lo.Floor, lo - lo.Floor as real;
    var d, g := (hi - lo).Floor, hi - lo - (hi - lo).Floor as real;
    assert Letterbox.Round(lo) == a + if f >= 0.5 then 1 else 0;
    assert Letterbox.Round(hi - lo) == d + if g >= 0.5 then 1 else 0;
    assert (a + d) as real + f + g == hi;
    if hi == limit as real && f == 0.5 {
      assert g == 0.5;
    }
  }

  // ---------- the CPU scan and the compacted rows ----------

  function CpuRow(l: Launch, i: nat): seq<real>
    requires WellFormed(l) && i < l.n
  {
    var best := Scan(CPU_START, Scores(l, i));
    [Attribute(l, 0, i), Attribute(l, 1, i), Attribute(l, 2, i), Attribute(l, 3, i), best.score, best.cls as real]
  }

  /** What the CPU scan keeps of the first k predictions, before its empty-box test. */
  function CpuRows(l: Launch, k: nat): seq<seq<real>>
    requires WellFormed(l) && k <= l.n
  {
    if k == 0 then []
    else CpuRows(l, k - 1) + if Passes(Scan(CPU_START, Scores(l, k - 1)), l.conf) then [CpuRow(l, k - 1)] else []
  }

  function Map<A, B>(f: A -> B, s: seq<A>): (r: seq<B>)
    ensures |r| == |s| && forall i :: 0 <= i < |s| ==> r[i] == f(s[i])
  {
    seq(|s|, i requires 0 <= i < |s| => f(s[i]))
  }

  lemma MapJoins<A, B>(f: A -> B, a: seq<A>, b: seq<A>)
    ensures Map(f, a + b) == Map(f, a) + Map(f, b)
  {
  }

  lemma RemoveOne<A, B>(f: A -> B, b: seq<A>, x: A) returns (c: seq<A>)
    requires x in b
    ensures multiset(b) == multiset(c) + multiset{x}
    ensures multiset(Map(f, b)) == multiset(Map(f, c)) + multiset{f(x)}
  {
    var i :| 0 <= i < |b| && b[i] == x;
    var before, after := b[..i], b[i + 1..];
    c := before + after;
    assert b == before + [x] + after;
    MapJoins(f, before, after);
    MapJoins(f, before + [x], after);
    MapJoins(f, before, [x]);
    assert Map(f, [x]) == [f(x)];
  }

  lemma SubmultisetCancel<A>(few: multiset<A>, rest: multiset<A>, x: A)
    requires few + multiset{x} <= rest + multiset{x}
    ensures few <= rest
  {
    forall e | e in few
      ensures few[e] <= rest[e]
    {
      assert (few + multiset{x})[e] <= (rest + multiset{x})[e];
    }
  }

  lemma {:induction false} MapSubmultiset<A, B>(f: A -> B, a: seq<A>, b: seq<A>)
    requires multiset(a) <= multiset(b)
    ensures multiset(Map(f, a)) <= multiset(Map(f, b))
  {
    if a != [] {
      var few, x := a[..|a| - 1], a[|a| - 1];
      assert a == few + [x];
      assert x in multiset(b);
      var c := RemoveOne(f, b, x);
      SubmultisetCancel(multiset(few), multiset(c), x);
      MapSubmultiset(f, few, c);
      assert Map(f, a) == Map(f, few) + [f(x)];
    }
  }

  /** The row the kernel stores for a prediction, as a total function. */
  function RowFn(l: Launch): (f: nat -> seq<real>)
    requires WellFormed(l)
    ensures forall j: nat :: j < l.n ==> f(j) == Row(l, j)
  {
    (j: nat) => if j < l.n then Row(l, j) else []
  }

  lemma {:induction false} CpuRowsArePassing(l: Launch, k: nat)
    requires WellFormed(l) && k <= l.n && l.conf > 0.0
    ensures CpuRows(l, k) == Map(RowFn(l), PassingBelow(l, k))
  {
    if k > 0 {
      CpuRowsArePassing(l, k - 1);
      PositiveThresholdAgrees(Scores(l, k - 1), l.conf);
      assert Passing(l, k - 1) ==> CpuRow(l, k - 1) == RowFn(l)(k - 1);
    }
  }

  /** The host's copy of the compacted region, one row of six numbers per slot. */
  function ReadRows(l: Launch, out: seq<real>, count: nat): seq<seq<real>>
    requires l.base + count * 6 <= |out|
  {
    seq(count, slot requires 0 <= slot < count => out[l.base + slot * 6..l.base + slot * 6 + 6])
  }

  function ClampCount(count: int, maxDet: nat): (c: nat)
    ensures c <= maxDet
  {
    if count < 0 then 0 else if count > maxDet then maxDet else count
  }

  /** The rows the host decodes after its clamp are inside the buffer. If no atomicAdd came before the reset they are rows of
      distinct predictions the CPU scan would keep, as many as the clamp allows. They are all of those, as a multiset, exactly
      when no atomicAdd came early and at most maxDet predictions pass. */
  lemma HostReadsCpuCandidates(l: Launch, init: State, es: seq<Event>)
    requires WellFormed(l) && Initial(l, init) && l.conf > 0.0 && Finished(l, Exec(l, init, es))
    ensures var s, cpu := Exec(l, init, es), CpuRows(l, l.n);
      var kept := ClampCount(s.count, l.maxDet);
      && l.base + kept * 6 <= |s.out|
      && (s.early == [] ==>
            && |ReadRows(l, s.out, kept)| == (if |cpu| <= l.maxDet then |cpu| else l.maxDet)
            && multiset(ReadRows(l, s.out, kept)) <= multiset(cpu))
      && (multiset(ReadRows(l, s.out, kept)) == multiset(cpu) <==> s.early == [] && |cpu| <= l.maxDet)
  {
    EveryPassingPredictionOnce(l, init, es);
    CpuRowsArePassing(l, l.n);
    OutKeepsLength(l, init, es);
    var s := Exec(l, init, es);
    if s.early == [] {
      ReadInOrder(l, init, es);
    } else {
      var rows := ReadRows(l, s.out, ClampCount(s.count, l.maxDet));
      assert |multiset(rows)| < |multiset(CpuRows(l, l.n))|;
    }
  }

  /** The run in which the reset came first. */
  lemma ReadInOrder(l: Launch, init: State, es: seq<Event>)
    requires WellFormed(l) && Initial(l, init) && l.conf > 0.0
    requires Finished(l, Exec(l, init, es)) && Exec(l, init, es).early == []
    ensures var s, cpu := Exec(l, init, es), CpuRows(l, l.n);
      var kept := ClampCount(s.count, l.maxDet);
      && l.base + kept * 6 <= |s.out|
      && |ReadRows(l, s.out, kept)| == (if |cpu| <= l.maxDet then |cpu| else l.maxDet)
      && multiset(ReadRows(l, s.out, kept)) <= multiset(cpu)
      && (multiset(ReadRows(l, s.out, kept)) == multiset(cpu) <==> |cpu| <= l.maxDet)
  {
    OutInvHolds(l, init, es);
    EveryPassingPredictionOnce(l, init, es);
    CpuRowsArePassing(l, l.n);
    var s := Exec(l, init, es);
    assert s.early + s.grabbed == s.grabbed;
    var kept := ClampCount(s.count, l.maxDet);
    SlotsRead(l, init, s, kept);
    KeptRows(RowFn(l), s.grabbed, PassingBelow(l, l.n), kept);
  }

  /** The images of the first `kept` of some elements, against the images of the same elements in another order. */
  lemma KeptRows<A, B>(f: A -> B, some: seq<A>, all: seq<A>, kept: nat)
    requires multiset(some) == multiset(all) && kept <= |some| == |all|
    ensures multiset(Map(f, some[..kept])) <= multiset(Map(f, all))
    ensures multiset(Map(f, some[..kept])) == multiset(Map(f, all)) <==> kept == |all|
  {
    assert some == some[..kept] + some[kept..];
    MapSubmultiset(f, some[..kept], all);
    if kept == |all| {
      assert some[..kept] == some;
      MapSubmultiset(f, all, some);
    } else {
      assert |multiset(Map(f, some[..kept]))| == kept && |multiset(Map(f, all))| == |all|;
    }
  }

  lemma {:induction false} OutKeepsLength(l: Launch, init: State, es: seq<Event>)
    requires WellFormed(l) && Initial(l, init)
    ensures |Exec(l, init, es).out| == |init.out|
    ensures var s := Exec(l, init, es); Finished(l, s) ==> s.count == |s.grabbed|
  {
    VisitInvHolds(l, init, es);
    if es != [] {
      OutKeepsLength(l, init, es[..|es| - 1]);
    }
  }

  lemma SlotsRead(l: Launch, init: State, s: State, kept: nat)
    requires WellFormed(l) && VisitInv(l, s) && OutInv(l, init, s) && Finished(l, s)
    requires kept <= |s.grabbed| && kept <= l.maxDet
    ensures ReadRows(l, s.out, kept) == Map(RowFn(l), s.grabbed[..kept])
  {
    forall slot | 0 <= slot < kept
      ensures s.grabbed[slot] < l.n && s.out[l.base + slot * 6..l.base + slot * 6 + 6] == Row(l, s.grabbed[slot])
    {
      SlotRead(l, init, s, slot);
    }
  }

  lemma SlotRead(l: Launch, init: State, s: State, slot: nat)
    requires WellFormed(l) && VisitInv(l, s) && OutInv(l, init, s) && Finished(l, s)
    requires slot < |s.grabbed| && slot < l.maxDet
    ensures s.grabbed[slot] < l.n && s.out[l.base + slot * 6..l.base + slot * 6 + 6] == Row(l, s.grabbed[slot])
  {
    GrabbedIsVisited(l, s, slot);
    assert SlotInv(l, s, slot);
    assert s.threads[s.grabbed[slot] % l.threads].phase.AtHead?;
    assert CellsHold(l, s.out, slot, s.grabbed[slot], 6);
  }

  /** Batch elements write disjoint parts of the output. */
  lemma RegionsDisjoint(b: nat, c: nat, maxDet: nat)
    requires b < c
    ensures b * (maxDet * 6) + maxDet * 6 <= c * (maxDet * 6)
  {
    Arithmetic.MulMonotone(b + 1, c, maxDet * 6);
    assert (b + 1) * (maxDet * 6) == b * (maxDet * 6) + maxDet * 6;
  }

  // ---------- the host loops ----------

  function Total(counts: seq<int>): int {
    if counts == [] then 0 else Total(counts[..|counts| - 1]) + counts[|counts| - 1]
  }

  /** The count clamp, in place. */
  method ClampCounts(counts: array<int>, maxDet: nat) returns (total: int)
    modifies counts
    ensures forall b :: 0 <= b < counts.Length ==> counts[b] == ClampCount(old(counts[b]), maxDet)
    ensures total == Total(counts[..])
    ensures total == 0 <==> forall b :: 0 <= b < counts.Length ==> old(counts[b]) <= 0 || maxDet == 0
  {
    total := 0;
    for b := 0 to counts.Length
      invariant forall k :: 0 <= k < b ==> counts[k] == ClampCount(old(counts[k]), maxDet)
      invariant forall k :: b <= k < counts.Length ==> counts[k] == old(counts[k])
      invariant total == Total(counts[..b]) >= 0
      invariant total == 0 <==> forall k :: 0 <= k < b ==> old(counts[k]) <= 0 || maxDet == 0
    {
      ghost var before := counts[..b];
      if counts[b] < 0 || counts[b] > maxDet {
        counts[b] := ClampCount(counts[b], maxDet);
      }
      total := total + counts[b];
      assert counts[..b] == before;
      assert counts[..b + 1][..b] == counts[..b];
    }
    assert counts[..counts.Length] == counts[..];
  }

  function RowCorners(p: LetterboxParams, row: seq<real>): Corners
    requires p.scale >= 0.0 && |row| == 6
  {
    Decode(p, row[0], row[1], row[2], row[3])
  }

  function DecodedRow(p: LetterboxParams, row: seq<real>): Detection
    requires p.scale >= 0.0 && |row| == 6
  {
    Detection(TruncatedRect(RowCorners(p, row)), row[4], Truncate(row[5]))
  }

  /** The CUDA build's decode loop over the copied buffer. */
  method DecodeRows(l: Launch, p: LetterboxParams, buffer: array<real>, count: nat) returns (detections: seq<Detection>)
    requires p.scale >= 0.0 && l.base + count * 6 <= buffer.Length
    ensures |detections| == count
    ensures forall i :: 0 <= i < count ==>
      |ReadRows(l, buffer[..], count)[i]| == 6 && detections[i] == DecodedRow(p, ReadRows(l, buffer[..], count)[i])
  {
    detections := [];
    for i := 0 to count
      invariant |detections| == i
      invariant forall k :: 0 <= k < i ==>
        |ReadRows(l, buffer[..], count)[k]| == 6 && detections[k] == DecodedRow(p, ReadRows(l, buffer[..], count)[k])
    {
      var det := l.base + i * 6;
      var corners := Decode(p, buffer[det], buffer[det + 1], buffer[det + 2], buffer[det + 3]);
      assert ReadRows(l, buffer[..], count)[i] == buffer[det..det + 6];
      detections := detections + [Detection(TruncatedRect(corners), buffer[det + 4], Truncate(buffer[det + 5]))];
    }
  }

  /** What the CPU keeps of a row: nothing when the clamped box is empty. */
  function Kept(p: LetterboxParams, row: seq<real>): seq<Detection>
    requires p.scale >= 0.0 && |row| == 6
  {
    var c := RowCorners(p, row);
    if IsEmpty(c) then [] else [Detection(RoundedRect(c), row[4], Truncate(row[5]))]
  }

  // ---------- from a letterboxed box to a detection ----------

  predicate Inside(p: LetterboxParams, c: Corners) {
    0.0 <= c.x1 <= c.x2 <= p.origW as real && 0.0 <= c.y1 <= c.y2 <= p.origH as real
  }

  /** The network's row for a box that the letterbox has mapped: center x and y, width, height, score and class. */
  function RowOf(p: LetterboxParams, c: Corners, score: real, cls: int): (row: seq<real>)
    ensures |row| == 6
  {
    [Forward((c.x1 + c.x2) / 2.0, p.padLeft, p.scale), Forward((c.y1 + c.y2) / 2.0, p.padTop, p.scale),
     (c.x2 - c.x1) * p.scale, (c.y2 - c.y1) * p.scale, score, cls as real]
  }

  lemma CornersOf(p: LetterboxParams, row: seq<real>, cx: real, cy: real, w: real, h: real)
    requires p.scale >= 0.0 && |row| == 6 && row[0] == cx && row[1] == cy && row[2] == w && row[3] == h
    ensures RowCorners(p, row) == Decode(p, cx, cy, w, h)
  {
  }

  lemma RowDecodes(p: LetterboxParams, c: Corners, score: real, cls: int)
    requires p.scale > 0.0 && Inside(p, c)
    ensures RowCorners(p, RowOf(p, c, score, cls)) == c
  {
    CornersOf(p, RowOf(p, c, score, cls), Center(c.x1, c.x2, p.padLeft, p.scale), Center(c.y1, c.y2, p.padTop, p.scale),
              Size(c.x1, c.x2, p.scale), Size(c.y1, c.y2, p.scale));
    DecodeInvertsLetterbox(p, c);
  }

  /** The whole box around one with real corners, off by less than one pixel below them. */
  predicate CutTo(r: Rect, c: Corners) {
    && r.x as real <= c.x1 < (r.x + 1) as real && r.w as real <= c.x2 - c.x1 < (r.w + 1) as real
    && r.y as real <= c.y1 < (r.y + 1) as real && r.h as real <= c.y2 - c.y1 < (r.h + 1) as real
  }

  /** The nearest one. */
  predicate RoundedTo(r: Rect, c: Corners) {
    && r.x as real - 0.5 <= c.x1 < r.x as real + 0.5 && r.w as real - 0.5 <= c.x2 - c.x1 < r.w as real + 0.5
    && r.y as real - 0.5 <= c.y1 < r.y as real + 0.5 && r.h as real - 0.5 <= c.y2 - c.y1 < r.h as real + 0.5
  }

  /** Both builds turn the row of a box inside the image, after the letterbox, back into that box with its score and class: the
      CUDA build cuts position and size of every box to whole pixels, the CPU build rounds those of a box that is not empty. */
  lemma DetectionsRoundTrip(p: LetterboxParams, c: Corners, score: real, cls: int, r: Rect)
    requires p.scale > 0.0 && Inside(p, c)
    ensures DecodedRow(p, RowOf(p, c, score, cls)) == Detection(r, score, cls) <==> CutTo(r, c)
    ensures Kept(p, RowOf(p, c, score, cls)) == [Detection(r, score, cls)] <==> c.x1 < c.x2 && c.y1 < c.y2 && RoundedTo(r, c)
    ensures Kept(p, RowOf(p, c, score, cls)) == [] <==> c.x1 == c.x2 || c.y1 == c.y2
  {
    RowDecodes(p, c, score, cls);
    WholePart(cls);
    CutIff(c.x1, r.x);
    CutIff(c.y1, r.y);
    CutIff(c.x2 - c.x1, r.w);
    CutIff(c.y2 - c.y1, r.h);
    if !IsEmpty(c) {
      assert Kept(p, RowOf(p, c, score, cls))[0] == Detection(RoundedRect(c), score, cls);
    }
  }

  lemma CutIff(x: real, n: int)
    requires x >= 0.0
    ensures Truncate(x) == n <==> n as real <= x < (n + 1) as real
    ensures Letterbox.Round(x) == n <==> n as real - 0.5 <= x < n as real + 0.5
  {
  }

  lemma WholePart(n: int)
    ensures Truncate(n as real) == n
  {
  }

  /** So a box with whole corners comes back exactly from both. */
  lemma WholeBoxesRoundTrip(p: LetterboxParams, box: Rect, score: real, cls: int)
    requires p.scale > 0.0 && box.w > 0 && box.h > 0
    requires 0 <= box.x && box.x + box.w <= p.origW && 0 <= box.y && box.y + box.h <= p.origH
    ensures var row := RowOf(p, Corners(box.x as real, box.y as real, (box.x + box.w) as real, (box.y + box.h) as real), score, cls);
      DecodedRow(p, row) == Detection(box, score, cls) && Kept(p, row) == [Detection(box, score, cls)]
  {
    var c := Corners(box.x as real, box.y as real, (box.x + box.w) as real, (box.y + box.h) as real);
    assert c.x2 - c.x1 == box.w as real && c.y2 - c.y1 == box.h as real;
    DetectionsRoundTrip(p, c, score, cls, box);
  }

  /** A batch slot without an image, whose parameters are all zero, only yields empty boxes at the origin. */
  lemma NoImageNoBox(p: LetterboxParams, row: seq<real>)
    requires p.scale == 0.0 && p.origW == p.origH == 0 && |row| == 6
    ensures DecodedRow(p, row).box == Rect(0, 0, 0, 0) && Kept(p, row) == []
  {
  }

  /** What the CPU makes of its candidates' rows, one after the other. */
  function Detections(p: LetterboxParams, rows: seq<seq<real>>): seq<Detection>
    requires p.scale >= 0.0 && forall i :: 0 <= i < |rows| ==> |rows[i]| == 6
  {
    if rows == [] then [] else Detections(p, rows[..|rows| - 1]) + Kept(p, rows[|rows| - 1])
  }

  lemma {:induction false} CpuRowsHaveSix(l: Launch, k: nat)
    requires WellFormed(l) && k <= l.n
    ensures forall i :: 0 <= i < |CpuRows(l, k)| ==> |CpuRows(l, k)[i]| == 6
  {
    if k > 0 {
      CpuRowsHaveSix(l, k - 1);
    }
  }

  /** The decode and empty-box test of one surviving prediction. */
  method KeepBox(p: LetterboxParams, cx: real, cy: real, w: real, h: real, best: Best) returns (kept: seq<Detection>)
    requires p.scale >= 0.0
    ensures kept == Kept(p, [cx, cy, w, h, best.score, best.cls as real])
  {
    var c := Decode(p, cx, cy, w, h);
    KeptOf(p, [cx, cy, w, h, best.score, best.cls as real], c);
    WholePart(best.cls);
    if IsEmpty(c) {
      return [];
    }
    return [Detection(RoundedRect(c), best.score, best.cls)];
  }

  lemma KeptOf(p: LetterboxParams, row: seq<real>, c: Corners)
    requires p.scale >= 0.0 && |row| == 6 && c == Decode(p, row[0], row[1], row[2], row[3])
    ensures Kept(p, row) == if IsEmpty(c) then [] else [Detection(RoundedRect(c), row[4], Truncate(row[5]))]
  {
  }

  /** The CPU build's loop over one batch element: class scan, threshold, decode, empty-box test. Its detections are those of
      the rows that HostReadsCpuCandidates speaks of. */
  method CpuScan(l: Launch, p: LetterboxParams) returns (detections: seq<Detection>)
    requires WellFormed(l) && p.scale >= 0.0
    ensures forall i :: 0 <= i < |CpuRows(l, l.n)| ==> |CpuRows(l, l.n)[i]| == 6
    ensures detections == Detections(p, CpuRows(l, l.n))
  {
    detections := [];
    for i := 0 to l.n
      invariant forall k :: 0 <= k < |CpuRows(l, i)| ==> |CpuRows(l, i)[k]| == 6
      invariant detections == Detections(p, CpuRows(l, i))
    {
      CpuRowsHaveSix(l, i + 1);
      var best := ScanLoop(CPU_START, Scores(l, i));
      if best.score >= l.conf {
        var kept := KeepBox(p, Attribute(l, 0, i), Attribute(l, 1, i), Attribute(l, 2, i), Attribute(l, 3, i), best);
        detections := detections + kept;
        assert CpuRows(l, i + 1)[..|CpuRows(l, i)|] == CpuRows(l, i);
      } else {
        assert CpuRows(l, i + 1) == CpuRows(l, i);
      }
    }
  }
}
