/** The part of a ModelRunner every scheduler drives: preprocess, infer and postprocess
    (include/scheduler/stage/Stage.h), as functions of what they read. A stage that throws is an event of the
    schedulers, so the functions here only say what a stage returns when it returns. */
module Runner {
  type Image(!new)
  type Plane(!new)    // the network input held in one slot of a tensor buffer
  type Params(!new)   // the LetterboxParams of one slot
  type Feature(!new)  // the network output of one slot
  type Answer(!new)

  datatype Option<+T> = None | Some(value: T)

  /** What a promise was given. */
  datatype Outcome = Value(answer: Answer) | Exception

  /** Where inference leaves its output: in memory of the output's own, or in a slot of the device's output pool, which
      every copy that postprocess makes of the tensor returns once more. */
  datatype OutputKind = OwnMemory | Pooled(copies: nat)

  /** Whether preprocess first copies the image to a slot of a staging pool on the device. `fits` tells the images that are no
      larger than a slot, and `sees(x, z, y)` that a preprocess of x may read y when one of z runs beside it and one of the two
      images does not fit (Staging.IsolatedIff). */
  datatype StagingKind = Direct | Staged(fits: Image -> bool, sees: (Image, Image, Image) -> bool)

  /** `batch` is getBatchSize(): the number of slots of every tensor buffer. `filtered`: postprocess works in a slot of a filter
      pool on the device. The three kinds of device memory are used by CUDA builds only. */
  datatype Runner = Runner(
    batch: nat, staging: StagingKind, output: OutputKind, filtered: bool,
    pixels: Image -> Plane,
    params: Image -> Params,
    infer: seq<Plane> -> seq<Feature>,
    post: (seq<Feature>, seq<Params>) -> seq<Answer>)

  ghost predicate SameSlot<T>(b: seq<T>, i: nat, c: seq<T>, j: nat) {
    i < |b| && j < |c| && b[i] == c[j]
  }

  /** Infer and postprocess return one result per slot, and a slot's result depends on that slot alone. */
  ghost predicate SlotWise(r: Runner) {
    && (forall b :: |b| == r.batch ==> |r.infer(b)| == r.batch)
    && (forall b: seq<Plane>, c, i: nat, j: nat {:trigger SameSlot(b, i, c, j)} ::
          |b| == |c| == r.batch && SameSlot(b, i, c, j) ==> r.infer(b)[i] == r.infer(c)[j])
    && (forall f, p :: |f| == |p| == r.batch ==> |r.post(f, p)| == r.batch)
    && (forall f: seq<Feature>, p: seq<Params>, g, q, i: nat, j: nat {:trigger SameSlot(f, i, g, j), SameSlot(p, i, q, j)} ::
          |f| == |p| == |g| == |q| == r.batch && SameSlot(f, i, g, j) && SameSlot(p, i, q, j) ==> r.post(f, p)[i] == r.post(g, q)[j])
  }

  lemma InferSlot(r: Runner, b: seq<Plane>, i: nat, c: seq<Plane>, j: nat)
    requires SlotWise(r) && |b| == |c| == r.batch && i < |b| && j < |c| && b[i] == c[j]
    ensures |r.infer(b)| == |r.infer(c)| == r.batch && r.infer(b)[i] == r.infer(c)[j]
  {
    assert SameSlot(b, i, c, j);
  }

  lemma PostSlot(r: Runner, f: seq<Feature>, p: seq<Params>, i: nat, g: seq<Feature>, q: seq<Params>, j: nat)
    requires SlotWise(r) && |f| == |p| == |g| == |q| == r.batch && i < r.batch && j < r.batch && f[i] == g[j] && p[i] == q[j]
    ensures |r.post(f, p)| == |r.post(g, q)| == r.batch && r.post(f, p)[i] == r.post(g, q)[j]
  {
    assert SameSlot(f, i, g, j) && SameSlot(p, i, q, j);
  }

  predicate ReturnsOnce(r: Runner) {
    r.output.Pooled? ==> r.output.copies == 0
  }

  /** A tensor buffer as it comes from the pool: every slot holds whatever was left there. */
  predicate IsBuffer(r: Runner, planes: seq<Plane>, params: seq<Params>) {
    |planes| == |params| == r.batch
  }

  /** post(infer(pre(x))) over a given buffer: preprocess fills slot 0, the rest stays stale. */
  function Outputs(r: Runner, planes: seq<Plane>, params: seq<Params>, x: Image): seq<Answer>
    requires r.batch > 0 && IsBuffer(r, planes, params)
  {
    r.post(r.infer(planes[0 := r.pixels(x)]), params[0 := r.params(x)])
  }

  /** The answer to x when it is served on its own. */
  ghost function Alone(r: Runner, planes: seq<Plane>, params: seq<Params>, x: Image): Answer
    requires SlotWise(r) && r.batch > 0 && IsBuffer(r, planes, params)
  {
    Outputs(r, planes, params, x)[0]
  }

  /** A slot that holds x's preprocessed data is answered as x alone is, whatever the slot's position
      and whatever the other slots of either buffer hold. */
  lemma SlotAnswersAlone(r: Runner, planes: seq<Plane>, params: seq<Params>, i: nat, x: Image,
                         stale: seq<Plane>, staleParams: seq<Params>)
    requires SlotWise(r) && IsBuffer(r, planes, params) && IsBuffer(r, stale, staleParams) && i < r.batch
    requires planes[i] == r.pixels(x) && params[i] == r.params(x)
    ensures r.post(r.infer(planes), params)[i] == Alone(r, stale, staleParams, x)
  {
    var own, ownParams := stale[0 := r.pixels(x)], staleParams[0 := r.params(x)];
    InferSlot(r, planes, i, own, 0);
    PostSlot(r, r.infer(planes), params, i, r.infer(own), ownParams, 0);
  }

  /** The answer to x's parameters over y's pixels. */
  ghost function Mixed(r: Runner, planes: seq<Plane>, params: seq<Params>, x: Image, y: Image): Answer
    requires SlotWise(r) && r.batch > 0 && IsBuffer(r, planes, params)
  {
    r.post(r.infer(planes[0 := r.pixels(y)]), params[0 := r.params(x)])[0]
  }

  /** The runner's answer does not depend on the pixels. */
  ghost predicate PixelBlind(r: Runner, stale: seq<Plane>, staleParams: seq<Params>)
    requires SlotWise(r) && r.batch > 0 && IsBuffer(r, stale, staleParams)
  {
    forall x, y :: Mixed(r, stale, staleParams, x, y) == Alone(r, stale, staleParams, x)
  }

  /** A preprocess of x beside one of z may read y instead. */
  predicate Tears(r: Runner, x: Image, z: Image, y: Image) {
    r.staging.Staged? && !(r.staging.fits(x) && r.staging.fits(z)) && r.staging.sees(x, z, y)
  }

  ghost predicate AllFit(r: Runner) {
    r.staging.Staged? ==> forall x :: r.staging.fits(x)
  }

  /** No image that may be read instead changes an answer. */
  ghost predicate TornBlind(r: Runner, stale: seq<Plane>, staleParams: seq<Params>)
    requires SlotWise(r) && r.batch > 0 && IsBuffer(r, stale, staleParams)
  {
    forall x, z, y :: Tears(r, x, z, y) ==> Mixed(r, stale, staleParams, x, y) == Alone(r, stale, staleParams, x)
  }
}
