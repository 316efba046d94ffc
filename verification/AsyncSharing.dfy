/** The pipelined scheduler: the runs in which a request is answered from another image than its own, in the build without CUDA
    and in the one with it, and the exact condition for there to be none. */
module AsyncSharing {
  import opened Runner
  import opened BufferSlots
  import opened Arithmetic
  import opened AsyncScheduler
  import opened AsyncAnswers

  /** x has been answered from y's pixels. */
  ghost predicate AnsweredFrom(r: Runner, s: State, p: nat, x: Image, y: Image, stale: seq<Plane>, staleParams: seq<Params>)
    requires SlotWise(r) && r.batch > 0 && IsBuffer(r, stale, staleParams)
  {
    p < |s.requests| && s.requests[p].x == x && s.requests[p].result == Some(Value(Mixed(r, stale, staleParams, x, y)))
  }

  /** Two requests sharing the one buffer: the second preprocesses before the first is inferred. */
  function Overtaking(x: Image, y: Image, wrapped: seq<Params>): seq<Event> {
    [Submit(x), Submit(y), Pre(0, Prepared, wrapped, Option.None), Pre(1, Prepared, wrapped, Option.None), Infer(0, Accepted), Post(0, Answered(true))]
  }

  lemma Chain(cuda: bool, r: Runner, init: State, es: seq<Event>, k: nat, s: State, s': State)
    requires k < |es| && Exec(cuda, r, init, es[..k]) == s && Step(cuda, r, s, es[k]) == s'
    ensures Exec(cuda, r, init, es[..k + 1]) == s'
  {
    assert es[..k + 1][..k] == es[..k];
  }

  /** The overtaking run up to the first inference. */
  lemma OvertakenBuffer(r: Runner, init: State, x: Image, y: Image, wrapped: seq<Params>)
    requires r.batch > 0 && Initial(r, init) && |wrapped| == r.batch
    ensures var s := Exec(false, r, init, Overtaking(x, y, wrapped)[..4]);
      && |s.requests| == 2 && |s.inputs.memory| > 0 && s.inputs.memory[0] == init.inputs.memory[0][0 := r.pixels(y)]
      && s.requests[0] == Request(x, InferQueued(0, wrapped[0 := r.params(x)]), Option.None)
  {
    var es, m := Overtaking(x, y, wrapped), init.inputs.memory;
    var rx, ry := Request(x, PreQueued, Option.None), Request(y, PreQueued, Option.None);
    var s1, s2 := init.(requests := [rx]), init.(requests := [rx, ry]);
    var s3 := init.(requests := [rx.(stage := InferQueued(0, wrapped[0 := r.params(x)])), ry],
                    inputs := init.inputs.(memory := m[0 := m[0][0 := r.pixels(x)]]));
    var s4 := Step(false, r, s3, es[3]);
    assert es[..0] == [];
    Chain(false, r, init, es, 0, init, s1);
    Chain(false, r, init, es, 1, s1, s2);
    Chain(false, r, init, es, 2, s2, s3);
    Chain(false, r, init, es, 3, s3, s4);
    assert m[0][0 := r.pixels(x)][0 := r.pixels(y)] == m[0][0 := r.pixels(y)];
  }

  /** Without CUDA the first of two overlapping requests is answered from the second one's pixels. */
  lemma SharedBufferMixesRequests(r: Runner, init: State, x: Image, y: Image, stale: seq<Plane>, wrapped: seq<Params>)
    requires SlotWise(r) && r.batch > 0 && Initial(r, init) && IsBuffer(r, stale, wrapped)
    ensures AnsweredFrom(r, Exec(false, r, init, Overtaking(x, y, wrapped)), 0, x, y, stale, wrapped)
  {
    OvertakenBuffer(r, init, x, y, wrapped);
    var es := Overtaking(x, y, wrapped);
    var s4 := Exec(false, r, init, es[..4]);
    var s5 := Step(false, r, s4, es[4]);
    Chain(false, r, init, es, 4, s4, s5);
    Chain(false, r, init, es, 5, s5, Step(false, r, s5, es[5]));
    assert es[..6] == es;
    var planes, own, params := s4.inputs.memory[0], stale[0 := r.pixels(y)], wrapped[0 := r.params(x)];
    InferSlot(r, planes, 0, own, 0);
    PostSlot(r, r.infer(planes), params, 0, r.infer(own), params, 0);
  }

  /** A state from which a CUDA build can take a request in. */
  ghost predicate Ready(r: Runner, s: State) {
    && s.inputs.free != [] && s.staging > 0 && s.filters > 0
    && (forall k :: k in s.inputs.free ==> k < |s.inputs.memory|)
    && (forall k :: 0 <= k < |s.inputs.memory| ==> |s.inputs.memory[k]| == r.batch)
  }

  /** The state after x was submitted and preprocessed. */
  lemma TakenIn(r: Runner, s: State, x: Image, wrapped: seq<Params>)
    requires r.batch > 0 && |wrapped| == r.batch && Ready(r, s)
    ensures var s' := Step(true, r, Step(true, r, s, Submit(x)), Pre(|s.requests|, Prepared, wrapped, Option.None));
      var i := s.inputs.free[0];
      && i < |s.inputs.memory|
      && s' == State(s.requests + [Request(x, InferQueued(i, wrapped[0 := r.params(x)]), Option.None)],
                     BufferSlots.Filled(Taken(s.inputs), i, s.inputs.memory[i][0 := r.pixels(x)]), s.outputs, s.staging, s.filters)
  {
    assert s.inputs.free[0] in s.inputs.free;
    var s1 := Step(true, r, s, Submit(x));
    assert s1.requests[|s.requests|] == Request(x, PreQueued, Option.None);
  }

  /** The state after it was inferred too: its features fill the oldest free output slot. */
  lemma Fed(r: Runner, s: State, q: Request, i: nat, planes: seq<Plane>, t: State)
    requires r.output.Pooled? && Ready(r, s) && Available(s.outputs) && i == s.inputs.free[0] < |s.inputs.memory|
    requires q.stage.InferQueued? && q.stage.buffer == i && |planes| == r.batch
    requires t == State(s.requests + [q], BufferSlots.Filled(Taken(s.inputs), i, planes), s.outputs, s.staging, s.filters)
    ensures var s', k := Step(true, r, t, Infer(|s.requests|, Accepted)), s.outputs.free[0];
      && Ready(r, s')
      && s'.requests == s.requests + [Request(q.x, PostQueued(InSlot(k), q.stage.params), q.result)]
      && s'.outputs == BufferSlots.Filled(Taken(s.outputs), k, r.infer(planes))
  {
    var s' := Step(true, r, t, Infer(|s.requests|, Accepted));
    assert t.requests[|s.requests|] == q;
    assert s'.inputs.free == s.inputs.free[1..] + [i];
    assert i in s.inputs.free;
    forall k | k in s'.inputs.free
      ensures k < |s'.inputs.memory|
    {
      assert k in s.inputs.free;
    }
  }

  /** Submits x and takes it through preprocess and inference. */
  lemma FeedOne(r: Runner, init: State, es: seq<Event>, x: Image, stale: seq<Plane>, wrapped: seq<Params>) returns (fed: seq<Event>)
    requires SlotWise(r) && r.batch > 0 && r.output.Pooled? && IsBuffer(r, stale, wrapped)
    requires var s := Exec(true, r, init, es); Ready(r, s) && Available(s.outputs)
    ensures var s, s' := Exec(true, r, init, es), Exec(true, r, init, fed);
      && Ready(r, s')
      && (var k := s.outputs.free[0];
          && s'.requests == s.requests + [Request(x, PostQueued(InSlot(k), wrapped[0 := r.params(x)]), Option.None)]
          && |s'.outputs.memory| == |s.outputs.memory|
          && s'.outputs == BufferSlots.Filled(Taken(s.outputs), k, s'.outputs.memory[k])
          && |s'.outputs.memory[k]| == r.batch && s'.outputs.memory[k][0] == r.infer(stale[0 := r.pixels(x)])[0])
  {
    var s := Exec(true, r, init, es);
    var p, i := |s.requests|, s.inputs.free[0];
    assert i in s.inputs.free;
    var planes := s.inputs.memory[i][0 := r.pixels(x)];
    fed := es + [Submit(x)] + [Pre(p, Prepared, wrapped, Option.None)] + [Infer(p, Accepted)];
    ExecOneMore(true, r, init, es, Submit(x));
    ExecOneMore(true, r, init, es + [Submit(x)], Pre(p, Prepared, wrapped, Option.None));
    ExecOneMore(true, r, init, es + [Submit(x)] + [Pre(p, Prepared, wrapped, Option.None)], Infer(p, Accepted));
    TakenIn(r, s, x, wrapped);
    Fed(r, s, Request(x, InferQueued(i, wrapped[0 := r.params(x)]), Option.None), i, planes,
        Exec(true, r, init, es + [Submit(x)] + [Pre(p, Prepared, wrapped, Option.None)]));
    InferSlot(r, planes, 0, stale[0 := r.pixels(x)], 0);
  }

  lemma PostedFirst(r: Runner, s: State, params: seq<Params>)
    requires r.output.Pooled? && Ready(r, s) && |s.requests| > 0 && |s.outputs.memory| > 0
    requires s.requests[0].stage == PostQueued(InSlot(0), params) && r.post(s.outputs.memory[0], params) != []
    ensures var s' := Step(true, r, s, Post(0, Answered(true)));
      Ready(r, s') && s'.outputs == OutputRead(s.outputs, 0, r.output.copies)
  {
  }

  lemma ReturnTwice(r: Runner, init: State, es: seq<Event>, k: nat) returns (more: seq<Event>)
    requires Exec(true, r, init, es).outputs.owed[k] >= 2
    ensures var s, s' := Exec(true, r, init, es), Exec(true, r, init, more);
      && s' == s.(outputs := s'.outputs)
      && s'.outputs.memory == s.outputs.memory && s'.outputs.free == s.outputs.free + [k, k]
  {
    more := es + [Return(k)] + [Return(k)];
    ExecOneMore(true, r, init, es, Return(k));
    ExecOneMore(true, r, init, es + [Return(k)], Return(k));
    PaidTwice(r, Exec(true, r, init, es), k);
  }

  lemma PaidTwice(r: Runner, s: State, k: nat)
    requires s.outputs.owed[k] >= 2
    ensures var s' := Step(true, r, Step(true, r, s, Return(k)), Return(k));
      && s' == s.(outputs := s'.outputs)
      && s'.outputs.memory == s.outputs.memory && s'.outputs.free == s.outputs.free + [k, k]
  {
    assert s.outputs.free + [k] + [k] == s.outputs.free + [k, k];
  }

  /** Serves y and lets both its release callbacks run: its output slot is queued twice. */
  lemma ServedTwiceReturned(r: Runner, init: State, y: Image, stale: seq<Plane>, wrapped: seq<Params>) returns (es: seq<Event>)
    requires SlotWise(r) && r.batch > 0 && r.output.Pooled? && r.output.copies > 0 && IsBuffer(r, stale, wrapped) && Initial(r, init)
    ensures var s := Exec(true, r, init, es);
      && Ready(r, s) && |s.outputs.memory| == |init.outputs.memory| && s.outputs.free == Numbers(|init.outputs.memory|)[1..] + [0, 0]
  {
    assert Exec(true, r, init, []) == init;
    es := FeedOne(r, init, [], y, stale, wrapped);
    var s1 := Exec(true, r, init, es);
    assert |r.post(s1.outputs.memory[0], wrapped[0 := r.params(y)])| == r.batch;
    PostedFirst(r, s1, wrapped[0 := r.params(y)]);
    ExecOneMore(true, r, init, es, Post(0, Answered(true)));
    es := ReturnTwice(r, init, es + [Post(0, Answered(true))], 0);
  }

  /** Keeps the remaining slots busy, so that the twice queued one comes to the head. */
  lemma {:induction false} FillUp(r: Runner, init: State, es: seq<Event>, y: Image, stale: seq<Plane>, wrapped: seq<Params>, n: nat)
    returns (full: seq<Event>)
    requires SlotWise(r) && r.batch > 0 && r.output.Pooled? && IsBuffer(r, stale, wrapped)
    requires var s := Exec(true, r, init, es);
      && Ready(r, s) && n + 2 == |s.outputs.free| && s.outputs.free[n..] == [0, 0] && |s.outputs.memory| > 0
      && forall k :: 0 <= k < n ==> s.outputs.free[k] < |s.outputs.memory|
    ensures var s := Exec(true, r, init, full); Ready(r, s) && s.outputs.free == [0, 0] && |s.outputs.memory| > 0
    decreases n
  {
    full := es;
    if n > 0 {
      var free := Exec(true, r, init, es).outputs.free;
      full := FeedOne(r, init, es, y, stale, wrapped);
      assert free[1..][n - 1..] == free[n..];
      full := FillUp(r, init, full, y, stale, wrapped, n - 1);
    } else {
      assert Exec(true, r, init, es).outputs.free[0..] == Exec(true, r, init, es).outputs.free;
    }
  }

  /** With a postprocess that copies the output tensor, a run of a CUDA build in which x is answered from y's pixels,
      whatever the size of the pools. */
  lemma TwiceReturnedMixesRequests(r: Runner, init: State, x: Image, y: Image, stale: seq<Plane>, wrapped: seq<Params>)
    returns (es: seq<Event>, p: nat)
    requires SlotWise(r) && r.batch > 0 && r.output.Pooled? && r.output.copies > 0 && IsBuffer(r, stale, wrapped) && Initial(r, init)
    ensures AnsweredFrom(r, Exec(true, r, init, es), p, x, y, stale, wrapped)
  {
    es := ServedTwiceReturned(r, init, y, stale, wrapped);
    es := FillUp(r, init, es, y, stale, wrapped, |init.outputs.memory| - 1);
    p := |Exec(true, r, init, es).requests|;
    es := FeedOne(r, init, es, x, stale, wrapped);
    es := FeedOne(r, init, es, y, stale, wrapped);
    var s, params, own := Exec(true, r, init, es), wrapped[0 := r.params(x)], stale[0 := r.pixels(y)];
    PostSlot(r, s.outputs.memory[0], params, 0, r.infer(own), params, 0);
    ExecOneMore(true, r, init, es, Post(p, Answered(true)));
    es := es + [Post(p, Answered(true))];
  }

  ghost predicate AlwaysRight(cuda: bool, r: Runner, init: State, stale: seq<Plane>, staleParams: seq<Params>)
    requires SlotWise(r) && r.batch > 0 && IsBuffer(r, stale, staleParams)
  {
    forall es, p: nat :: RightAnswer(cuda, r, init, es, p, stale, staleParams)
  }

  lemma RightMeansBlind(cuda: bool, r: Runner, init: State, stale: seq<Plane>, staleParams: seq<Params>)
    requires SlotWise(r) && r.batch > 0 && IsBuffer(r, stale, staleParams) && Initial(r, init) && !Private(cuda, r)
    requires AlwaysRight(cuda, r, init, stale, staleParams)
    ensures PixelBlind(r, stale, staleParams)
  {
    forall x, y
      ensures Mixed(r, stale, staleParams, x, y) == Alone(r, stale, staleParams, x)
    {
      var es, p := Overtaking(x, y, staleParams), 0;
      if cuda {
        es, p := TwiceReturnedMixesRequests(r, init, x, y, stale, staleParams);
      } else {
        SharedBufferMixesRequests(r, init, x, y, stale, staleParams);
      }
      assert RightAnswer(cuda, r, init, es, p, stale, staleParams);
    }
  }

  function Overrun(x: Image, z: Image, y: Image, wrapped: seq<Params>): seq<Event> {
    [Submit(x), Submit(z), Pre(0, Prepared, wrapped, Some((1, y))), Infer(0, Accepted), Post(0, Answered(true))]
  }

  lemma OverrunBuffer(r: Runner, init: State, x: Image, z: Image, y: Image, wrapped: seq<Params>)
    requires r.batch > 0 && Initial(r, init) && |wrapped| == r.batch && TwoAtOnce(init) && Tears(r, x, z, y)
    ensures var s := Exec(true, r, init, Overrun(x, z, y, wrapped)[..3]);
      && |s.requests| == 2 && s.outputs == init.outputs && s.filters == init.filters
      && s.inputs.memory == init.inputs.memory[0 := init.inputs.memory[0][0 := r.pixels(y)]]
      && s.requests[0] == Request(x, InferQueued(0, wrapped[0 := r.params(x)]), Option.None)
  {
    var es := Overrun(x, z, y, wrapped);
    var rx, rz := Request(x, PreQueued, Option.None), Request(z, PreQueued, Option.None);
    var s1, s2 := init.(requests := [rx]), init.(requests := [rx, rz]);
    assert es[..0] == [];
    Chain(true, r, init, es, 0, init, s1);
    Chain(true, r, init, es, 1, s1, s2);
    Chain(true, r, init, es, 2, s2, Step(true, r, s2, es[2]));
  }

  /** A run in which the copy of z, beside that of x, makes x's preprocess read y. */
  lemma OverrunMixesRequests(r: Runner, init: State, x: Image, z: Image, y: Image, stale: seq<Plane>, wrapped: seq<Params>)
    requires SlotWise(r) && r.batch > 0 && Initial(r, init) && IsBuffer(r, stale, wrapped)
    requires init.staging >= 2 && |init.inputs.memory| >= 2
    requires r.staging.Staged? && !(r.staging.fits(x) && r.staging.fits(z)) && r.staging.sees(x, z, y)
    ensures AnsweredFrom(r, Exec(true, r, init, Overrun(x, z, y, wrapped)), 0, x, y, stale, wrapped)
  {
    assert TwoAtOnce(init) && Tears(r, x, z, y);
    OverrunAnswers(r, init, x, z, y, stale, wrapped);
  }

  lemma OverrunAnswers(r: Runner, init: State, x: Image, z: Image, y: Image, stale: seq<Plane>, wrapped: seq<Params>)
    requires SlotWise(r) && r.batch > 0 && Initial(r, init) && IsBuffer(r, stale, wrapped) && TwoAtOnce(init) && Tears(r, x, z, y)
    ensures AnsweredFrom(r, Exec(true, r, init, Overrun(x, z, y, wrapped)), 0, x, y, stale, wrapped)
  {
    OverrunBuffer(r, init, x, z, y, wrapped);
    var es := Overrun(x, z, y, wrapped);
    var s3 := Exec(true, r, init, es[..3]);
    var planes, own, params := s3.inputs.memory[0], stale[0 := r.pixels(y)], wrapped[0 := r.params(x)];
    InferSlot(r, planes, 0, own, 0);
    PostSlot(r, r.infer(planes), params, 0, r.infer(own), params, 0);
    var s4 := Step(true, r, s3, es[3]);
    assert Features(s4, s4.requests[0].stage.output) == r.infer(planes);
    Chain(true, r, init, es, 3, s3, s4);
    Chain(true, r, init, es, 4, s4, Step(true, r, s4, es[4]));
    assert es[..5] == es;
  }

  /** In every run of a build the answers are right exactly when the runner cannot tell whose pixels it sees, or it is a CUDA
      build that returns each output slot once and whose images fit their staging slots, unless what is read instead changes no
      answer or there is never a second preprocess beside. */
  lemma PipelineRightIff(cuda: bool, r: Runner, init: State, stale: seq<Plane>, staleParams: seq<Params>)
    requires SlotWise(r) && r.batch > 0 && IsBuffer(r, stale, staleParams) && Initial(r, init)
    ensures AlwaysRight(cuda, r, init, stale, staleParams) <==>
      || PixelBlind(r, stale, staleParams)
      || (cuda && ReturnsOnce(r) && (TornBlind(r, stale, staleParams) || init.staging < 2 || |init.inputs.memory| < 2))
  {
    if PixelBlind(r, stale, staleParams) {
      forall es, p: nat
        ensures RightAnswer(cuda, r, init, es, p, stale, staleParams)
      {
        InvHolds(Anyones, cuda, r, init, es, stale, staleParams);
        var s := Exec(cuda, r, init, es);
        assert p < |s.requests| ==> RequestInv(Anyones, r, s, s.requests[p], stale, staleParams);
      }
    } else if Private(cuda, r) {
      PrivateRightIff(r, init, stale, staleParams);
    } else if AlwaysRight(cuda, r, init, stale, staleParams) {
      RightMeansBlind(cuda, r, init, stale, staleParams);
    }
  }

  lemma PrivateRightIff(r: Runner, init: State, stale: seq<Plane>, staleParams: seq<Params>)
    requires SlotWise(r) && r.batch > 0 && IsBuffer(r, stale, staleParams) && Initial(r, init) && ReturnsOnce(r)
    ensures AlwaysRight(true, r, init, stale, staleParams) <==> TornBlind(r, stale, staleParams) || !TwoAtOnce(init)
  {
    if TornBlind(r, stale, staleParams) || !TwoAtOnce(init) {
      forall es, p: nat
        ensures RightAnswer(true, r, init, es, p, stale, staleParams)
      {
        PipelineAnswersAlone(r, init, es, p, stale, staleParams);
      }
    } else {
      var x, z, y :| Tears(r, x, z, y) && Mixed(r, stale, staleParams, x, y) != Alone(r, stale, staleParams, x);
      OverrunMixesRequests(r, init, x, z, y, stale, staleParams);
      assert !RightAnswer(true, r, init, Overrun(x, z, y, staleParams), 0, stale, staleParams);
    }
  }
}
