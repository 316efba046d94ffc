/** src/runner/detect/YoloDetector.cpp: the slots of device memory that images are copied to, as they are, before the
    preprocessing kernel reads them. The copy's length is that of the image; the slot's is that of the network input. */
module Staging {
  import opened Arithmetic
  import opened TensorBufferPool
  import opened GpuPreprocess

  /** plane_size() * sizeof(float): three float planes of the network's input size. */
  function SlotBytes(dstW: nat, dstH: nat): nat {
    3 * (dstW * dstH) * 4
  }

  function ImageBytes(l: Launch): nat {
    l.srcH * l.srcStep
  }

  /** cudaMemcpyAsync of an image to an address, in memory that the pool is part of. */
  function CopiedTo(memory: seq<nat>, at: nat, image: seq<nat>): (r: seq<nat>)
    requires at + |image| <= |memory|
    ensures |r| == |memory|
  {
    memory[..at] + image + memory[at + |image|..]
  }

  /** The launch on what is found at an address. */
  function LaunchAt(l: Launch, memory: seq<nat>, at: nat): Launch
    requires at + |l.src| <= |memory|
  {
    l.(src := memory[at..at + |l.src|])
  }

  ghost predicate WholeImage(l: Launch) {
    WellFormed(l) && |l.src| == ImageBytes(l)
  }

  /** With l's image copied to slot i and then another image to slot j, the kernel runs on l's image. */
  ghost predicate Undisturbed(l: Launch, base: nat, memory: seq<nat>, i: nat, j: nat, other: seq<nat>) {
    var at, next := SlotAddress(base, SlotBytes(l.dstW, l.dstH), i), SlotAddress(base, SlotBytes(l.dstW, l.dstH), j);
    at + |l.src| <= |memory| && next + |other| <= |memory| ==>
      LaunchAt(l, CopiedTo(CopiedTo(memory, at, l.src), next, other), at) == l
  }

  /** Everything the copy writes and the kernel reads is inside the image's own slot, and so outside every other one, exactly
      when the image is no larger than the slot. */
  lemma CopyInSlotIff(l: Launch, base: nat, i: nat)
    requires WholeImage(l)
    ensures var ele := SlotBytes(l.dstW, l.dstH);
      && (SlotAddress(base, ele, i) + |l.src| <= SlotAddress(base, ele, i + 1) <==> l.srcH * l.srcStep <= 12 * (l.dstW * l.dstH))
      && (l.srcH * l.srcStep <= 12 * (l.dstW * l.dstH) ==> forall x: nat, y: nat, c: nat :: x < l.srcW && y < l.srcH && c < 3 ==>
            SlotAddress(base, ele, i) + ReadOffset(l, x, y, c) < SlotAddress(base, ele, i + 1))
  {
    var ele := SlotBytes(l.dstW, l.dstH);
    assert SlotAddress(base, ele, i + 1) == SlotAddress(base, ele, i) + ele;
    forall x: nat, y: nat, c: nat | x < l.srcW && y < l.srcH && c < 3
      ensures ReadOffset(l, x, y, c) < ImageBytes(l)
    {
      ReadInRange(l, x, y, c);
    }
  }

  /** A preprocess of l's image is never disturbed by one of another image of `size` bytes, whatever their slots, exactly when
      both images fit a slot. */
  lemma IsolatedIff(l: Launch, base: nat, size: nat)
    requires WholeImage(l) && size > 0
    ensures (forall memory, i: nat, j: nat, other :: i != j && |other| == size ==> Undisturbed(l, base, memory, i, j, other))
       <==> ImageBytes(l) <= SlotBytes(l.dstW, l.dstH) && size <= SlotBytes(l.dstW, l.dstH)
  {
    if ImageBytes(l) <= SlotBytes(l.dstW, l.dstH) && size <= SlotBytes(l.dstW, l.dstH) {
      forall memory, i: nat, j: nat, other | i != j && |other| == size
        ensures Undisturbed(l, base, memory, i, j, other)
      {
        FittingCopies(l, base, memory, i, j, other);
      }
    } else if ImageBytes(l) > SlotBytes(l.dstW, l.dstH) {
      OwnOverrunIsOverwritten(l, base, size);
    } else {
      OtherOverrunOverwrites(l, base, size);
    }
  }

  lemma FittingCopies(l: Launch, base: nat, memory: seq<nat>, i: nat, j: nat, other: seq<nat>)
    requires i != j && |l.src| <= SlotBytes(l.dstW, l.dstH) && |other| <= SlotBytes(l.dstW, l.dstH)
    ensures Undisturbed(l, base, memory, i, j, other)
  {
    var ele := SlotBytes(l.dstW, l.dstH);
    if i < j {
      SlotsDisjoint(base, ele, i, j);
    } else {
      SlotsDisjoint(base, ele, j, i);
    }
  }

  /** The part of an image that runs into the next slot is overwritten by the image copied there. */
  lemma OwnOverrunIsOverwritten(l: Launch, base: nat, size: nat)
    requires WholeImage(l) && size > 0 && ImageBytes(l) > SlotBytes(l.dstW, l.dstH)
    ensures exists memory, i: nat, j: nat, other :: i != j && |other| == size && !Undisturbed(l, base, memory, i, j, other)
  {
    var ele := SlotBytes(l.dstW, l.dstH);
    var at, next := SlotAddress(base, ele, 0), SlotAddress(base, ele, 1);
    var memory := seq(next + |l.src| + size, _ => 0);
    var other := seq(size, _ => (l.src[ele] + 1) % 256);
    var after := CopiedTo(CopiedTo(memory, at, l.src), next, other);
    assert next == at + ele;
    assert after[next] == other[0] != l.src[ele];
    assert LaunchAt(l, after, at).src[ele] == after[next];
    assert !Undisturbed(l, base, memory, 0, 1, other);
  }

  /** An image too large for its slot, in the slot before, overwrites the first byte. */
  lemma OtherOverrunOverwrites(l: Launch, base: nat, size: nat)
    requires WholeImage(l) && size > SlotBytes(l.dstW, l.dstH) && |l.src| > 0
    ensures exists memory, i: nat, j: nat, other :: i != j && |other| == size && !Undisturbed(l, base, memory, i, j, other)
  {
    var ele := SlotBytes(l.dstW, l.dstH);
    var at, next := SlotAddress(base, ele, 1), SlotAddress(base, ele, 0);
    var memory := seq(at + |l.src| + size, _ => 0);
    var other := seq(size, _ => (l.src[0] + 1) % 256);
    var after := CopiedTo(CopiedTo(memory, at, l.src), next, other);
    assert at == next + ele;
    assert after[at] == other[ele] != l.src[0];
    assert LaunchAt(l, after, at).src[0] == after[at];
    assert !Undisturbed(l, base, memory, 1, 0, other);
  }

  /** A full HD image does not fit the slot of a 640 by 640 network. */
  lemma FullHdOverruns(l: Launch)
    requires l.srcW == 1920 && l.srcH == 1080 && l.srcStep == 3 * l.srcW && l.dstW == l.dstH == 640
    ensures ImageBytes(l) == 6220800 > SlotBytes(l.dstW, l.dstH) == 4915200
  {
  }
}
