/** The batch scheduler over the device's pools: the runs in which a request is answered from another image than its own, and
    the exact condition for there to be none. */
module BatchSharing {
  import opened Runner
  import opened Arithmetic
  import opened BufferSlots
  import opened Gathering
  import opened BatchBuffers
  import opened BatchRefinement
  import opened BatchRuns
  import Ideal = BatchScheduler

  // ---------- output slots that are returned twice ----------

  lemma ReturnTwice(r: Runner, init: State, es: seq<Event>, k: nat) returns (more: seq<Event>)
    requires PoolsInv(r, Exec(r, init, es)) && Exec(r, init, es).outputs.owed[k] >= 2 && AllThrowless(es)
    ensures AllThrowless(more)
    ensures var s, s' := Exec(r, init, es), Exec(r, init, more);
      && PoolsInv(r, s') && s' == s.(outputs := s'.outputs)
      && s'.outputs.memory == s.outputs.memory && s'.outputs.free == s.outputs.free + [k, k]
  {
    var free := Exec(r, init, es).outputs.free;
    more := ReturnOne(r, init, es, k);
    more := ReturnOne(r, init, more, k);
    assert free + [k] + [k] == free + [k, k];
  }

  /** Serves y and lets both its release callbacks run: its output slot is queued twice. */
  lemma ServedTwiceReturned(r: Runner, init: State, y: Image, stale: seq<Plane>, wrapped: seq<Params>) returns (es: seq<Event>)
    requires SlotWise(r) && r.batch > 0 && r.output.Pooled? && r.output.copies > 0 && IsBuffer(r, stale, wrapped) && Initial(r, init)
    ensures AllThrowless(es)
    ensures var s := Exec(r, init, es);
      && Ready(r, s) && s.staging > 0 && s.filters > 0 && |s.outputs.memory| == |init.outputs.memory|
      && s.outputs.free == Numbers(|init.outputs.memory|)[1..] + [0, 0]
  {
    InitialPools(r, init);
    var none: seq<Event> := [];
    assert Exec(r, init, none) == init;
    es := FeedOne(r, init, none, y, stale, wrapped);
    var s1 := Exec(r, init, es);
    es := AnswerOne(r, init, es, 0, y, 0, wrapped[0 := r.params(y)], y, true, stale);
    assert Exec(r, init, es).outputs.owed[0] >= 2;
    es := ReturnTwice(r, init, es, 0);
    assert Exec(r, init, es).outputs.free == s1.outputs.free + [0, 0];
  }

  /** Keeps the remaining slots busy, so that the twice queued one comes to the head. */
  lemma {:induction false} FillUp(r: Runner, init: State, es: seq<Event>, y: Image, stale: seq<Plane>, wrapped: seq<Params>, n: nat)
    returns (full: seq<Event>)
    requires SlotWise(r) && r.batch > 0 && r.output.Pooled? && IsBuffer(r, stale, wrapped) && AllThrowless(es)
    requires var s := Exec(r, init, es);
      && Ready(r, s) && s.staging > 0 && s.filters > 0
      && n + 2 == |s.outputs.free| && s.outputs.free[n..] == [0, 0] && |s.outputs.memory| > 0
      && forall k :: 0 <= k < n ==> s.outputs.free[k] < |s.outputs.memory|
    ensures AllThrowless(full)
    ensures var s := Exec(r, init, full);
      Ready(r, s) && s.staging > 0 && s.filters > 0 && s.outputs.free == [0, 0] && |s.outputs.memory| > 0
    decreases n
  {
    full := es;
    if n > 0 {
      var free := Exec(r, init, es).outputs.free;
      full := FeedOne(r, init, es, y, stale, wrapped);
      assert free[1..][n - 1..] == free[n..];
      full := FillUp(r, init, full, y, stale, wrapped, n - 1);
    } else {
      assert Exec(r, init, es).outputs.free[0..] == Exec(r, init, es).outputs.free;
    }
  }

  ghost predicate AnsweredFrom(r: Runner, s: State, b: nat, x: Image, y: Image, stale: seq<Plane>, staleParams: seq<Params>)
    requires SlotWise(r) && r.batch > 0 && IsBuffer(r, stale, staleParams)
  {
    && b < |s.core.batches| && |s.core.batches[b].promises| == |s.core.batches[b].results| == 1
    && s.core.batches[b].promises[0] < |s.core.submitted| && s.core.submitted[s.core.batches[b].promises[0]] == x
    && s.core.batches[b].results[0] == Some(Value(Mixed(r, stale, staleParams, x, y)))
  }

  /** With a postprocess that copies the output tensor, a run in which nothing throws and x is answered from y's pixels,
      whatever the batch size and the size of the pools. */
  lemma TwiceReturnedMixesRequests(r: Runner, init: State, x: Image, y: Image, stale: seq<Plane>, wrapped: seq<Params>)
    returns (es: seq<Event>, b: nat)
    requires SlotWise(r) && r.batch > 0 && r.output.Pooled? && r.output.copies > 0 && IsBuffer(r, stale, wrapped) && Initial(r, init)
    ensures AllThrowless(es) && AnsweredFrom(r, Exec(r, init, es), b, x, y, stale, wrapped)
  {
    es := ServedTwiceReturned(r, init, y, stale, wrapped);
    es := FillUp(r, init, es, y, stale, wrapped, |init.outputs.memory| - 1);
    var s := Exec(r, init, es);
    b := |s.core.batches|;
    es := BothInOneSlot(r, init, es, x, y, stale, wrapped);
    es := AnswerOne(r, init, es, b, x, |s.core.submitted|, wrapped[0 := r.params(x)], y, true, stale);
    MixedIgnoresParams(r, stale, wrapped, x, y);
  }

  lemma MixedIgnoresParams(r: Runner, planes: seq<Plane>, params: seq<Params>, x: Image, y: Image)
    requires SlotWise(r) && r.batch > 0 && IsBuffer(r, planes, params)
    ensures Mixed(r, planes, params[0 := r.params(x)], x, y) == Mixed(r, planes, params, x, y)
  {
    assert params[0 := r.params(x)][0 := r.params(x)] == params[0 := r.params(x)];
  }

  /** Feeds x and then y; the second inference overwrites the output of the first. */
  lemma BothInOneSlot(r: Runner, init: State, es: seq<Event>, x: Image, y: Image, stale: seq<Plane>, wrapped: seq<Params>)
    returns (fed: seq<Event>)
    requires SlotWise(r) && r.batch > 0 && r.output.Pooled? && IsBuffer(r, stale, wrapped) && AllThrowless(es)
    requires var s := Exec(r, init, es);
      Ready(r, s) && s.staging > 0 && s.filters > 0 && s.outputs.free == [0, 0] && |s.outputs.memory| > 0
    ensures AllThrowless(fed)
    ensures var s, s', b := Exec(r, init, es), Exec(r, init, fed), |Exec(r, init, es).core.batches|;
      && PoolsInv(r, s') && s'.filters > 0 && |s'.core.batches| > b && s'.core.submitted == s.core.submitted + [x] + [y]
      && IsFed(r, s', b, x, |s.core.submitted|, wrapped[0 := r.params(x)], y, stale)
  {
    var b, params := |Exec(r, init, es).core.batches|, wrapped[0 := r.params(x)];
    fed := FeedOne(r, init, es, x, stale, wrapped);
    var s1 := Exec(r, init, fed);
    fed := FeedOne(r, init, fed, y, stale, wrapped);
    var s2 := Exec(r, init, fed);
    Overwritten(r, s1, s2, b, x, |Exec(r, init, es).core.submitted|, params, y, |s1.core.submitted|, wrapped[0 := r.params(y)], stale);
  }

  lemma Overwritten(r: Runner, s: State, s': State, b: nat, x: Image, promise: nat, params: seq<Params>,
                   y: Image, last: nat, lastParams: seq<Params>, stale: seq<Plane>)
    requires SlotWise(r) && r.batch > 0 && |stale| == r.batch && r.output.Pooled? && PoolsInv(r, s')
    requires IsFed(r, s, b, x, promise, params, x, stale) && s.loans[b].output == Some(0)
    requires |s'.core.batches| == |s'.loans| == b + 2 && |s.core.batches| == |s.loans| == b + 1
    requires s'.core.batches[..b + 1] == s.core.batches && s'.loans[..b + 1] == s.loans && s'.loans[b + 1].output == Some(0)
    requires IsFed(r, s', b + 1, y, last, lastParams, y, stale)
    ensures IsFed(r, s', b, x, promise, params, y, stale)
  {
    assert s'.core.batches[b] == s'.core.batches[..b + 1][b] == s.core.batches[b];
    assert s'.loans[b] == s'.loans[..b + 1][b] == s.loans[b];
    assert Tracked(s', b) && Tracked(s', b + 1);
    assert Loaded(s', b).phase == Loaded(s', b + 1).phase;
  }

  // ---------- images that do not fit their staging slots ----------

  /** A run in which nothing throws and the copy of z, beside that of x, makes x's preprocess read y. */
  lemma OverrunMixesRequests(r: Runner, init: State, x: Image, z: Image, y: Image, stale: seq<Plane>, wrapped: seq<Params>)
    returns (es: seq<Event>)
    requires SlotWise(r) && r.batch > 0 && IsBuffer(r, stale, wrapped) && Initial(r, init)
    requires init.staging >= 2 && |init.inputs.memory| >= 2
    requires r.staging.Staged? && !(r.staging.fits(x) && r.staging.fits(z)) && r.staging.sees(x, z, y)
    ensures AllThrowless(es) && AnsweredFrom(r, Exec(r, init, es), 0, x, y, stale, wrapped)
  {
    es := TwoDispatched(r, init, x, z, wrapped);
    var over := Some(Beside(1, 0, y));
    assert OverEnabled(r, Exec(r, init, es), 0, 0, over);
    es := InferDispatched(r, init, es, 0, x, 0, over, stale, wrapped);
    es := AnswerOne(r, init, es, 0, x, 0, wrapped[0 := r.params(x)], y, true, stale);
    MixedIgnoresParams(r, stale, wrapped, x, y);
  }

  /** x and z in batches of their own, neither preprocessed. */
  lemma TwoDispatched(r: Runner, init: State, x: Image, z: Image, wrapped: seq<Params>) returns (es: seq<Event>)
    requires r.batch > 0 && |wrapped| == r.batch && Initial(r, init) && TwoAtOnce(init)
    ensures AllThrowless(es)
    ensures var s := Exec(r, init, es);
      && PoolsInv(r, s) && |s.loans| == 2 == |s.core.batches| && s.staging == init.staging && s.filters == init.filters
      && |s.inputs.memory| == |init.inputs.memory| && s.outputs == init.outputs && !s.loans[0].returned
      && s.core.submitted == [x] + [z]
      && s.core.batches[0] == Ideal.NewBatch([x], [0], [], wrapped) && PendingAt(s, 0, 0)
      && s.core.batches[1].inputs == [z] && PendingAt(s, 1, 0)
  {
    InitialPools(r, init);
    es := [];
    assert Exec(r, init, es) == init;
    es := DispatchOne(r, init, es, x, wrapped);
    var s1 := Exec(r, init, es);
    es := DispatchOne(r, init, es, z, wrapped);
    BothDispatched(s1, Exec(r, init, es), x, z, wrapped);
  }

  lemma BothDispatched(s1: State, s2: State, x: Image, z: Image, wrapped: seq<Params>)
    requires s1.core.batches == [Ideal.NewBatch([x], [0], [], wrapped)] && |s1.loans| == 1 && !s1.loans[0].returned
    requires s2.core.batches == s1.core.batches + [Ideal.NewBatch([z], [1], [], wrapped)]
    requires |s2.loans| == 2 && s2.loans[..1] == s1.loans
    ensures s2.core.batches[0] == Ideal.NewBatch([x], [0], [], wrapped) && PendingAt(s2, 0, 0) && !s2.loans[0].returned
    ensures s2.core.batches[1].inputs == [z] && PendingAt(s2, 1, 0)
  {
    assert s2.loans[0] == s2.loans[..1][0];
  }

  // ---------- the condition ----------

  ghost predicate AlwaysRight(r: Runner, init: State, stale: seq<Plane>, staleParams: seq<Params>)
    requires SlotWise(r) && r.batch > 0 && IsBuffer(r, stale, staleParams)
  {
    forall es, b: nat, i: nat :: RightAnswer(r, Exec(r, init, es), b, i, stale, staleParams)
  }

  lemma ReturnedOnceIsSpaced(r: Runner, init: State, es: seq<Event>)
    requires ReturnsOnce(r)
    ensures Spaced(r, init, es)
  {
  }

  /** For a runner whose answers depend on the pixels, and on what is read in place of an image if some image does not fit its
      staging slot: batching agrees with sequential service in every run exactly when each output slot is returned once and
      images fit, or there is never a second preprocess beside. */
  lemma BatchingRightIff(r: Runner, init: State, stale: seq<Plane>, staleParams: seq<Params>)
    requires SlotWise(r) && r.batch > 0 && IsBuffer(r, stale, staleParams) && Initial(r, init)
    requires !PixelBlind(r, stale, staleParams) && (AllFit(r) || !TornBlind(r, stale, staleParams))
    ensures AlwaysRight(r, init, stale, staleParams) <==>
      ReturnsOnce(r) && (AllFit(r) || init.staging < 2 || |init.inputs.memory| < 2)
  {
    if !ReturnsOnce(r) {
      var x, y :| Mixed(r, stale, staleParams, x, y) != Alone(r, stale, staleParams, x);
      var es, b := TwiceReturnedMixesRequests(r, init, x, y, stale, staleParams);
      assert !RightAnswer(r, Exec(r, init, es), b, 0, stale, staleParams);
    } else if !NeverTorn(r, init) {
      var x, z, y :| Tears(r, x, z, y) && Mixed(r, stale, staleParams, x, y) != Alone(r, stale, staleParams, x);
      var es := OverrunMixesRequests(r, init, x, z, y, stale, staleParams);
      assert !RightAnswer(r, Exec(r, init, es), 0, 0, stale, staleParams);
    } else {
      forall es, b: nat, i: nat
        ensures RightAnswer(r, Exec(r, init, es), b, i, stale, staleParams)
      {
        ReturnedOnceIsSpaced(r, init, es);
        PooledBatchingRefinesSequential(r, init, es, b, i, stale, staleParams);
      }
    }
  }
}
