/** The pipelined scheduler: whose data a request is answered from. An invariant of every run says where the pixels in each
    buffer and the features in each slot come from, and so every delivered value of a CUDA build is the answer to its own input. */
module AsyncAnswers {
  import opened Runner
  import opened BufferSlots
  import opened Gathering
  import opened AsyncScheduler

  function HeldInput(q: Request): multiset<nat> {
    if q.stage.InferQueued? then multiset{q.stage.buffer} else multiset{}
  }

  function HeldOutput(q: Request): multiset<nat> {
    if q.stage.PostQueued? && q.stage.output.InSlot? then multiset{q.stage.output.slot} else multiset{}
  }

  /** The builds in which no buffer is ever in two hands. */
  predicate Private(cuda: bool, r: Runner) {
    cuda && ReturnsOnce(r)
  }

  ghost predicate InputsInv(cuda: bool, r: Runner, s: Slots<seq<Plane>>, held: multiset<nat>) {
    && |s.memory| > 0 && s.owed == multiset{}
    && (forall k :: 0 <= k < |s.memory| ==> |s.memory[k]| == r.batch)
    && (cuda ==> Conserved(s, held))
  }

  ghost predicate PoolsInv(cuda: bool, r: Runner, s: State) {
    && InputsInv(cuda, r, s.inputs, Gather(HeldInput, s.requests))
    && OutputsInv(UsesOutputPool(cuda, r), Private(cuda, r), s.outputs, Gather(HeldOutput, s.requests))
  }

  /** What is known of the image a request is answered from. */
  datatype Origin = Itself | ItselfOrTorn | Anyones

  ghost predicate Source(o: Origin, r: Runner, x: Image, y: Image) {
    match o
    case Itself => y == x
    case ItselfOrTorn => y == x || exists z :: Tears(r, x, z, y)
    case Anyones => true
  }

  /** Where the origin can be known at all. */
  ghost predicate OriginFits(o: Origin, cuda: bool, r: Runner, s: State) {
    && (!o.Anyones? ==> cuda)
    && (o.Itself? && UsesStaging(cuda, r) ==> !TwoAtOnce(s))
  }

  ghost predicate NoneAwaitsPost(s: State) {
    forall p :: 0 <= p < |s.requests| ==> !s.requests[p].stage.PostQueued?
  }

  /** A step that writes no output slot another request still needs. */
  ghost predicate Spares(r: Runner, s: State, e: Event) {
    ReturnsOnce(r) || (e.Infer? ==> NoneAwaitsPost(s))
  }

  ghost predicate HoldsPixels(o: Origin, r: Runner, planes: seq<Plane>, x: Image)
    requires |planes| > 0
  {
    exists y :: Source(o, r, x, y) && planes[0] == r.pixels(y)
  }

  ghost predicate HoldsFeatures(o: Origin, r: Runner, features: seq<Feature>, x: Image, stale: seq<Plane>)
    requires SlotWise(r) && r.batch > 0 && |features| == |stale| == r.batch
  {
    exists y :: Source(o, r, x, y) && features[0] == r.infer(stale[0 := r.pixels(y)])[0]
  }

  ghost predicate RequestInv(o: Origin, r: Runner, s: State, q: Request, stale: seq<Plane>, staleParams: seq<Params>)
    requires SlotWise(r) && r.batch > 0 && IsBuffer(r, stale, staleParams)
  {
    && (q.stage.InferQueued? ==>
          && |q.stage.params| == r.batch && q.stage.params[0] == r.params(q.x)
          && q.stage.buffer < |s.inputs.memory| && |s.inputs.memory[q.stage.buffer]| == r.batch
          && HoldsPixels(o, r, s.inputs.memory[q.stage.buffer], q.x))
    && (q.stage.PostQueued? ==>
          && |q.stage.params| == r.batch && q.stage.params[0] == r.params(q.x)
          && (q.stage.output.InSlot? ==> q.stage.output.slot < |s.outputs.memory|)
          && |Features(s, q.stage.output)| == r.batch
          && HoldsFeatures(o, r, Features(s, q.stage.output), q.x, stale))
    && (q.result.Some? && q.result.value.Value? ==>
          exists y :: Source(o, r, q.x, y) && q.result.value.answer == Mixed(r, stale, staleParams, q.x, y))
  }

  ghost predicate Inv(o: Origin, cuda: bool, r: Runner, s: State, stale: seq<Plane>, staleParams: seq<Params>)
    requires SlotWise(r) && r.batch > 0 && IsBuffer(r, stale, staleParams)
  {
    && PoolsInv(cuda, r, s) && OriginFits(o, cuda, r, s)
    && forall p :: 0 <= p < |s.requests| ==> RequestInv(o, r, s, s.requests[p], stale, staleParams)
  }

  lemma PreInputsKeepsInv(cuda: bool, r: Runner, s: State, x: Image, pre: PreEnd, held: multiset<nat>)
    requires r.batch > 0 && InputsInv(cuda, r, s.inputs, held) && BufferReady(cuda, r, s) && !pre.NoBuffer?
    ensures var (inputs, k) := PreInputs(cuda, r, s, x, pre);
      && k < |s.inputs.memory|
      && inputs.memory == s.inputs.memory[k := s.inputs.memory[k][0 := r.pixels(x)]]
      && InputsInv(cuda, r, inputs, if pre.Prepared? then held + multiset{k} else held)
      && (cuda ==> k !in held)
  {
    if cuda {
      TakenConserves(s.inputs, held);
      var k := s.inputs.free[0];
      var filled := BufferSlots.Filled(Taken(s.inputs), k, s.inputs.memory[k][0 := r.pixels(x)]);
      ReturnedConserves(filled, held, k);
    }
  }

  lemma PreKeepsPools(cuda: bool, r: Runner, s: State, p: nat, pre: PreEnd, wrapped: seq<Params>,
                      over: Option<(nat, Image)>)
    requires PoolsInv(cuda, r, s) && Enabled(cuda, r, s, Pre(p, pre, wrapped, over))
    ensures PoolsInv(cuda, r, Preprocessed(cuda, r, s, p, pre, wrapped, over))
  {
    var s' := Preprocessed(cuda, r, s, p, pre, wrapped, over);
    GatherSwap(HeldInput, s.requests, p, s'.requests[p]);
    GatherSwap(HeldOutput, s.requests, p, s'.requests[p]);
    if !pre.NoBuffer? {
      PreInputsKeepsInv(cuda, r, s, Seen(s.requests[p].x, over), pre, Gather(HeldInput, s.requests));
    }
  }

  lemma InferKeepsInputs(cuda: bool, r: Runner, s: State, p: nat, end: InferEnd)
    requires PoolsInv(cuda, r, s) && Enabled(cuda, r, s, Infer(p, end))
    ensures var s' := Inferred(cuda, r, s, p, end); InputsInv(cuda, r, s'.inputs, Gather(HeldInput, s'.requests))
  {
    var s' := Inferred(cuda, r, s, p, end);
    GatherSwap(HeldInput, s.requests, p, s'.requests[p]);
    if cuda {
      InputAfterConserves(s.inputs, Gather(HeldInput, s'.requests), s.requests[p].stage.buffer, end);
    }
  }

  lemma InferredHolds(cuda: bool, r: Runner, s: State, p: nat, end: InferEnd)
    requires Enabled(cuda, r, s, Infer(p, end))
    ensures var s' := Inferred(cuda, r, s, p, end);
      && s'.requests == s.requests[p := s'.requests[p]]
      && HeldOutput(s.requests[p]) == multiset{}
      && HeldOutput(s'.requests[p])
         == if UsesOutputPool(cuda, r) && end.Accepted? then multiset{s.outputs.free[0]} else multiset{}
  {
  }

  lemma InferKeepsOutputs(cuda: bool, r: Runner, s: State, p: nat, end: InferEnd)
    requires PoolsInv(cuda, r, s) && Enabled(cuda, r, s, Infer(p, end))
    ensures var s' := Inferred(cuda, r, s, p, end);
      OutputsInv(UsesOutputPool(cuda, r), Private(cuda, r), s'.outputs, Gather(HeldOutput, s'.requests))
  {
    var s', held := Inferred(cuda, r, s, p, end), Gather(HeldOutput, s.requests);
    InferredHolds(cuda, r, s, p, end);
    GatherSwap(HeldOutput, s.requests, p, s'.requests[p]);
    assert held + multiset{} == held;
    if UsesOutputPool(cuda, r) {
      OutputAfterKeepsInv(Private(cuda, r), s.outputs, held, end, r.infer(s.inputs.memory[s.requests[p].stage.buffer]));
    }
  }

  lemma InferKeepsPools(cuda: bool, r: Runner, s: State, p: nat, end: InferEnd)
    requires PoolsInv(cuda, r, s) && Enabled(cuda, r, s, Infer(p, end))
    ensures PoolsInv(cuda, r, Inferred(cuda, r, s, p, end))
  {
    InferKeepsInputs(cuda, r, s, p, end);
    InferKeepsOutputs(cuda, r, s, p, end);
  }

  /** Which output slot an infer task writes; a number past the last one if none. */
  lemma OutputTarget(cuda: bool, r: Runner, s: State, p: nat, end: InferEnd) returns (j: nat)
    requires PoolsInv(cuda, r, s) && Enabled(cuda, r, s, Infer(p, end))
    ensures var s' := Inferred(cuda, r, s, p, end);
      && s'.inputs.memory == s.inputs.memory
      && (if j < |s.outputs.memory|
          then s'.outputs.memory == s.outputs.memory[j := r.infer(s.inputs.memory[s.requests[p].stage.buffer])]
          else s'.outputs.memory == s.outputs.memory)
      && (Private(cuda, r) ==> j !in Gather(HeldOutput, s.requests))
  {
    j := |s.outputs.memory|;
    if UsesOutputPool(cuda, r) && TakesOutput(end) {
      j := s.outputs.free[0];
      if Private(cuda, r) {
        TakenConserves(s.outputs, Gather(HeldOutput, s.requests));
      }
    }
  }

  lemma PostKeepsOutputs(cuda: bool, r: Runner, s: State, p: nat, end: PostEnd)
    requires PoolsInv(cuda, r, s) && Enabled(cuda, r, s, Post(p, end))
    ensures var s' := Postprocessed(cuda, r, s, p, end);
      OutputsInv(UsesOutputPool(cuda, r), Private(cuda, r), s'.outputs, Gather(HeldOutput, s'.requests))
  {
    var s', output := Postprocessed(cuda, r, s, p, end), s.requests[p].stage.output;
    GatherSwap(HeldOutput, s.requests, p, s'.requests[p]);
    if output.InSlot? {
      GatherHas(HeldOutput, s.requests, p);
      assert output.slot in Gather(HeldOutput, s.requests);
      OutputReadKeepsInv(Private(cuda, r), s.outputs, Gather(HeldOutput, s'.requests), output.slot, r.output.copies);
    }
  }

  lemma PostKeepsPools(cuda: bool, r: Runner, s: State, p: nat, end: PostEnd)
    requires PoolsInv(cuda, r, s) && Enabled(cuda, r, s, Post(p, end))
    ensures PoolsInv(cuda, r, Postprocessed(cuda, r, s, p, end))
  {
    PostKeepsOutputs(cuda, r, s, p, end);
    GatherSwap(HeldInput, s.requests, p, Postprocessed(cuda, r, s, p, end).requests[p]);
  }

  lemma SubmitKeepsPools(cuda: bool, r: Runner, s: State, x: Image)
    requires PoolsInv(cuda, r, s)
    ensures PoolsInv(cuda, r, Submitted(s, x))
  {
    GatherAppend(HeldInput, s.requests, Request(x, PreQueued, Option.None));
    GatherAppend(HeldOutput, s.requests, Request(x, PreQueued, Option.None));
    assert Gather(HeldInput, s.requests) + multiset{} == Gather(HeldInput, s.requests);
    assert Gather(HeldOutput, s.requests) + multiset{} == Gather(HeldOutput, s.requests);
  }

  lemma ReturnKeepsPools(cuda: bool, r: Runner, s: State, k: nat)
    requires PoolsInv(cuda, r, s) && k in s.outputs.owed
    ensures PoolsInv(cuda, r, s.(outputs := Paid(s.outputs, k)))
  {
    PaidKeepsInv(UsesOutputPool(cuda, r), Private(cuda, r), s.outputs, Gather(HeldOutput, s.requests), k);
  }

  lemma StepKeepsPools(cuda: bool, r: Runner, s: State, e: Event)
    requires PoolsInv(cuda, r, s)
    ensures PoolsInv(cuda, r, Step(cuda, r, s, e))
  {
    if Enabled(cuda, r, s, e) {
      match e
      case Submit(x) => SubmitKeepsPools(cuda, r, s, x);
      case Pre(p, pre, wrapped, over) => PreKeepsPools(cuda, r, s, p, pre, wrapped, over);
      case Infer(p, end) => InferKeepsPools(cuda, r, s, p, end);
      case Post(p, end) => PostKeepsPools(cuda, r, s, p, end);
      case Return(k) => ReturnKeepsPools(cuda, r, s, k);
    }
  }

  /** Writing a buffer that holds x's pixels, or an output slot that holds its features, does not disturb another request:
      if the origins matter it holds neither, and otherwise any image will do. */
  lemma OthersKeepInv(o: Origin, cuda: bool, r: Runner, s: State, s': State, q: Request, stale: seq<Plane>, staleParams: seq<Params>,
                      k: nat, planes: seq<Plane>, j: nat, features: seq<Feature>, x: Image)
    requires SlotWise(r) && r.batch > 0 && IsBuffer(r, stale, staleParams) && RequestInv(o, r, s, q, stale, staleParams)
    requires k < |s.inputs.memory| && |planes| == r.batch
    requires s'.inputs.memory == s.inputs.memory || s'.inputs.memory == s.inputs.memory[k := planes]
    requires j < |s.outputs.memory| ==> |features| == r.batch
    requires s'.outputs.memory == s.outputs.memory || (j < |s.outputs.memory| && s'.outputs.memory == s.outputs.memory[j := features])
    requires planes[0] == r.pixels(x)
    requires j < |s.outputs.memory| ==> features[0] == r.infer(stale[0 := r.pixels(x)])[0]
    requires !o.Anyones? ==> k !in HeldInput(q) || s'.inputs.memory == s.inputs.memory
    requires !o.Anyones? ==> j !in HeldOutput(q) || s'.outputs.memory == s.outputs.memory
    ensures RequestInv(o, r, s', q, stale, staleParams)
  {
    if q.stage.InferQueued? && s'.inputs.memory[q.stage.buffer] != s.inputs.memory[q.stage.buffer] {
      assert Source(o, r, q.x, x);
    }
    if q.stage.PostQueued? && q.stage.output.InSlot? && Features(s', q.stage.output) != Features(s, q.stage.output) {
      assert Source(o, r, q.x, x);
    }
  }

  /** The others, all together, when request p has moved on. */
  lemma MoveKeepsInv(o: Origin, cuda: bool, r: Runner, s: State, s': State, p: nat, stale: seq<Plane>, staleParams: seq<Params>,
                     k: nat, planes: seq<Plane>, j: nat, features: seq<Feature>, x: Image)
    requires SlotWise(r) && r.batch > 0 && IsBuffer(r, stale, staleParams) && Inv(o, cuda, r, s, stale, staleParams)
    requires p < |s.requests| == |s'.requests| && s'.requests == s.requests[p := s'.requests[p]]
    requires PoolsInv(cuda, r, s') && OriginFits(o, cuda, r, s') && RequestInv(o, r, s', s'.requests[p], stale, staleParams)
    requires k < |s.inputs.memory| && |planes| == r.batch && planes[0] == r.pixels(x)
    requires s'.inputs.memory == s.inputs.memory || s'.inputs.memory == s.inputs.memory[k := planes]
    requires j < |s.outputs.memory| ==> |features| == r.batch && features[0] == r.infer(stale[0 := r.pixels(x)])[0]
    requires s'.outputs.memory == s.outputs.memory || (j < |s.outputs.memory| && s'.outputs.memory == s.outputs.memory[j := features])
    requires !o.Anyones? ==> k !in Gather(HeldInput, s.requests) || s'.inputs.memory == s.inputs.memory
    requires !o.Anyones? ==> j !in Gather(HeldOutput, s.requests) || s'.outputs.memory == s.outputs.memory
    ensures Inv(o, cuda, r, s', stale, staleParams)
  {
    forall q | 0 <= q < |s'.requests|
      ensures RequestInv(o, r, s', s'.requests[q], stale, staleParams)
    {
      if q != p {
        GatherHas(HeldInput, s.requests, q);
        GatherHas(HeldOutput, s.requests, q);
        OthersKeepInv(o, cuda, r, s, s', s.requests[q], stale, staleParams, k, planes, j, features, x);
      }
    }
  }

  lemma PreKeepsInv(o: Origin, cuda: bool, r: Runner, s: State, p: nat, pre: PreEnd, wrapped: seq<Params>,
                    over: Option<(nat, Image)>, stale: seq<Plane>, staleParams: seq<Params>)
    requires SlotWise(r) && r.batch > 0 && IsBuffer(r, stale, staleParams) && Inv(o, cuda, r, s, stale, staleParams)
    requires Enabled(cuda, r, s, Pre(p, pre, wrapped, over))
    ensures Inv(o, cuda, r, Preprocessed(cuda, r, s, p, pre, wrapped, over), stale, staleParams)
  {
    var s', x := Preprocessed(cuda, r, s, p, pre, wrapped, over), s.requests[p].x;
    var y := Seen(x, over);
    PreKeepsPools(cuda, r, s, p, pre, wrapped, over);
    var k, planes := 0, s.inputs.memory[0][0 := r.pixels(y)];
    if !pre.NoBuffer? {
      PreInputsKeepsInv(cuda, r, s, y, pre, Gather(HeldInput, s.requests));
      k := PreInputs(cuda, r, s, y, pre).1;
      planes := s.inputs.memory[k][0 := r.pixels(y)];
    }
    assert Source(o, r, x, y) && planes[0] == r.pixels(y);
    assert RequestInv(o, r, s', s'.requests[p], stale, staleParams);
    MoveKeepsInv(o, cuda, r, s, s', p, stale, staleParams, k, planes, |s.outputs.memory|, [], y);
  }

  /** What an infer task leaves its own request with. */
  lemma InferredRequest(o: Origin, cuda: bool, r: Runner, s: State, p: nat, end: InferEnd, stale: seq<Plane>, staleParams: seq<Params>)
    returns (y: Image)
    requires SlotWise(r) && r.batch > 0 && IsBuffer(r, stale, staleParams) && Enabled(cuda, r, s, Infer(p, end))
    requires RequestInv(o, r, s, s.requests[p], stale, staleParams)
    ensures var s', features := Inferred(cuda, r, s, p, end), r.infer(s.inputs.memory[s.requests[p].stage.buffer]);
      && RequestInv(o, r, s', s'.requests[p], stale, staleParams)
      && |features| == r.batch && s.inputs.memory[s.requests[p].stage.buffer][0] == r.pixels(y)
      && features[0] == r.infer(stale[0 := r.pixels(y)])[0]
  {
    var s', q := Inferred(cuda, r, s, p, end), s.requests[p];
    var planes := s.inputs.memory[q.stage.buffer];
    y :| Source(o, r, q.x, y) && planes[0] == r.pixels(y);
    InferSlot(r, planes, 0, stale[0 := r.pixels(y)], 0);
    assert end.Accepted? ==> Features(s', s'.requests[p].stage.output) == r.infer(planes);
  }

  lemma InferKeepsInv(o: Origin, cuda: bool, r: Runner, s: State, p: nat, end: InferEnd, stale: seq<Plane>, staleParams: seq<Params>)
    requires SlotWise(r) && r.batch > 0 && IsBuffer(r, stale, staleParams) && Inv(o, cuda, r, s, stale, staleParams)
    requires Enabled(cuda, r, s, Infer(p, end)) && (!o.Anyones? ==> Spares(r, s, Infer(p, end)))
    ensures Inv(o, cuda, r, Inferred(cuda, r, s, p, end), stale, staleParams)
  {
    var s', k := Inferred(cuda, r, s, p, end), s.requests[p].stage.buffer;
    InferKeepsPools(cuda, r, s, p, end);
    assert RequestInv(o, r, s, s.requests[p], stale, staleParams);
    var y := InferredRequest(o, cuda, r, s, p, end, stale, staleParams);
    var j := OutputTarget(cuda, r, s, p, end);
    if !o.Anyones? && !ReturnsOnce(r) {
      GatherNothing(HeldOutput, s.requests);
    }
    MoveKeepsInv(o, cuda, r, s, s', p, stale, staleParams, k, s.inputs.memory[k], j, r.infer(s.inputs.memory[k]), y);
  }

  lemma PostedRequest(o: Origin, cuda: bool, r: Runner, s: State, p: nat, end: PostEnd, stale: seq<Plane>, staleParams: seq<Params>)
    requires SlotWise(r) && r.batch > 0 && IsBuffer(r, stale, staleParams) && Enabled(cuda, r, s, Post(p, end))
    requires RequestInv(o, r, s, s.requests[p], stale, staleParams)
    ensures var s' := Postprocessed(cuda, r, s, p, end); RequestInv(o, r, s', s'.requests[p], stale, staleParams)
  {
    var s', q := Postprocessed(cuda, r, s, p, end), s.requests[p];
    var features := Features(s, q.stage.output);
    var y :| Source(o, r, q.x, y) && features[0] == r.infer(stale[0 := r.pixels(y)])[0];
    PostSlot(r, features, q.stage.params, 0, r.infer(stale[0 := r.pixels(y)]), staleParams[0 := r.params(q.x)], 0);
    assert end.Answered? ==> s'.requests[p].result == Some(Value(Mixed(r, stale, staleParams, q.x, y)));
  }

  lemma PostKeepsInv(o: Origin, cuda: bool, r: Runner, s: State, p: nat, end: PostEnd, stale: seq<Plane>, staleParams: seq<Params>)
    requires SlotWise(r) && r.batch > 0 && IsBuffer(r, stale, staleParams) && Inv(o, cuda, r, s, stale, staleParams)
    requires Enabled(cuda, r, s, Post(p, end))
    ensures Inv(o, cuda, r, Postprocessed(cuda, r, s, p, end), stale, staleParams)
  {
    PostKeepsPools(cuda, r, s, p, end);
    assert RequestInv(o, r, s, s.requests[p], stale, staleParams);
    PostedRequest(o, cuda, r, s, p, end, stale, staleParams);
    var x := s.requests[p].x;
    var planes := s.inputs.memory[0][0 := r.pixels(x)];
    MoveKeepsInv(o, cuda, r, s, Postprocessed(cuda, r, s, p, end), p, stale, staleParams, 0, planes, |s.outputs.memory|, [], x);
  }

  lemma SubmitKeepsInv(o: Origin, cuda: bool, r: Runner, s: State, x: Image, stale: seq<Plane>, staleParams: seq<Params>)
    requires SlotWise(r) && r.batch > 0 && IsBuffer(r, stale, staleParams) && Inv(o, cuda, r, s, stale, staleParams)
    ensures Inv(o, cuda, r, Submitted(s, x), stale, staleParams)
  {
    SubmitKeepsPools(cuda, r, s, x);
    var s' := Submitted(s, x);
    forall q | 0 <= q < |s'.requests|
      ensures RequestInv(o, r, s', s'.requests[q], stale, staleParams)
    {
      if q < |s.requests| {
        assert RequestInv(o, r, s, s.requests[q], stale, staleParams);
      }
    }
  }

  lemma ReturnKeepsInv(o: Origin, cuda: bool, r: Runner, s: State, k: nat, stale: seq<Plane>, staleParams: seq<Params>)
    requires SlotWise(r) && r.batch > 0 && IsBuffer(r, stale, staleParams) && Inv(o, cuda, r, s, stale, staleParams)
    requires k in s.outputs.owed
    ensures Inv(o, cuda, r, s.(outputs := Paid(s.outputs, k)), stale, staleParams)
  {
    ReturnKeepsPools(cuda, r, s, k);
    forall q | 0 <= q < |s.requests|
      ensures RequestInv(o, r, s.(outputs := Paid(s.outputs, k)), s.requests[q], stale, staleParams)
    {
      assert RequestInv(o, r, s, s.requests[q], stale, staleParams);
    }
  }

  lemma StepKeepsInv(o: Origin, cuda: bool, r: Runner, s: State, e: Event, stale: seq<Plane>, staleParams: seq<Params>)
    requires SlotWise(r) && r.batch > 0 && IsBuffer(r, stale, staleParams) && Inv(o, cuda, r, s, stale, staleParams)
    requires !o.Anyones? ==> Spares(r, s, e)
    ensures Inv(o, cuda, r, Step(cuda, r, s, e), stale, staleParams)
  {
    if Enabled(cuda, r, s, e) {
      match e
      case Pre(p, pre, wrapped, over) => PreKeepsInv(o, cuda, r, s, p, pre, wrapped, over, stale, staleParams);
      case Infer(p, end) => InferKeepsInv(o, cuda, r, s, p, end, stale, staleParams);
      case Post(p, end) => PostKeepsInv(o, cuda, r, s, p, end, stale, staleParams);
      case Submit(x) => SubmitKeepsInv(o, cuda, r, s, x, stale, staleParams);
      case Return(k) => ReturnKeepsInv(o, cuda, r, s, k, stale, staleParams);
    }
  }

  lemma InitialInv(cuda: bool, r: Runner, init: State)
    requires Initial(r, init)
    ensures PoolsInv(cuda, r, init)
  {
    assert Conserved(init.outputs, multiset{});
    ConservedInRange(init.outputs, multiset{});
  }

  /** No inference writes a slot of the output pool while an output waits for its postprocess, or slots are returned once. */
  ghost predicate Spaced(cuda: bool, r: Runner, init: State, es: seq<Event>) {
    forall k :: 0 <= k < |es| ==> Spares(r, Exec(cuda, r, init, es[..k]), es[k])
  }

  lemma {:induction false} InvHolds(o: Origin, cuda: bool, r: Runner, init: State, es: seq<Event>, stale: seq<Plane>, staleParams: seq<Params>)
    requires SlotWise(r) && r.batch > 0 && IsBuffer(r, stale, staleParams) && Initial(r, init)
    requires OriginFits(o, cuda, r, init) && (!o.Anyones? ==> Spaced(cuda, r, init, es))
    ensures Inv(o, cuda, r, Exec(cuda, r, init, es), stale, staleParams)
  {
    if es == [] {
      InitialInv(cuda, r, init);
    } else {
      var n := |es| - 1;
      assert !o.Anyones? ==> Spares(r, Exec(cuda, r, init, es[..n]), es[n]);
      forall k | 0 <= k < n && !o.Anyones?
        ensures Spares(r, Exec(cuda, r, init, es[..n][..k]), es[..n][k])
      {
        assert es[..n][..k] == es[..k];
      }
      InvHolds(o, cuda, r, init, es[..n], stale, staleParams);
      StepKeepsInv(o, cuda, r, Exec(cuda, r, init, es[..n]), es[n], stale, staleParams);
    }
  }

  /** In a CUDA build, if images fit their staging slots (or what is read instead changes no answer), and in a run in which no
      inference writes an output slot while another output waits for its postprocess (or slots are returned once), every
      delivered value is the answer to its own input alone, in every interleaving. */
  lemma PipelineAnswersAlone(r: Runner, init: State, es: seq<Event>, p: nat, stale: seq<Plane>, staleParams: seq<Params>)
    requires SlotWise(r) && r.batch > 0 && IsBuffer(r, stale, staleParams) && Initial(r, init)
    requires Spaced(true, r, init, es) && (TornBlind(r, stale, staleParams) || !TwoAtOnce(init))
    ensures RightAnswer(true, r, init, es, p, stale, staleParams)
  {
    var o := if TornBlind(r, stale, staleParams) then ItselfOrTorn else Itself;
    InvHolds(o, true, r, init, es, stale, staleParams);
    var s := Exec(true, r, init, es);
    if p < |s.requests| {
      assert RequestInv(o, r, s, s.requests[p], stale, staleParams);
    }
  }

  lemma FittingImagesAreTornBlind(r: Runner, stale: seq<Plane>, staleParams: seq<Params>)
    requires SlotWise(r) && r.batch > 0 && IsBuffer(r, stale, staleParams) && AllFit(r)
    ensures TornBlind(r, stale, staleParams)
  {
  }

  ghost predicate RightAnswer(cuda: bool, r: Runner, init: State, es: seq<Event>, p: nat, stale: seq<Plane>, staleParams: seq<Params>)
    requires SlotWise(r) && r.batch > 0 && IsBuffer(r, stale, staleParams)
  {
    var s := Exec(cuda, r, init, es);
    p < |s.requests| && s.requests[p].result.Some? && s.requests[p].result.value.Value? ==>
      s.requests[p].result.value.answer == Alone(r, stale, staleParams, s.requests[p].x)
  }
}
