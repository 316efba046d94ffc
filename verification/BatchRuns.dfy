/** The batch scheduler over the device's pools: the steps that the runs of BatchSharing.dfy and BatchBlocking.dfy are made
    of, on batches of one request. */
module BatchRuns {
  import opened Runner
  import opened Arithmetic
  import opened BufferSlots
  import opened Gathering
  import opened BatchBuffers
  import Ideal = BatchScheduler

  lemma One(r: Runner, init: State, es: seq<Event>, e: Event) returns (more: seq<Event>)
    ensures AllThrowless(es) && Throwless(e) ==> AllThrowless(more)
    ensures Exec(r, init, more) == Step(r, Exec(r, init, es), e)
  {
    more := es + [e];
    ExecOneMore(r, init, es, e);
  }

  lemma Two(r: Runner, init: State, es: seq<Event>, e: Event, f: Event) returns (more: seq<Event>)
    ensures AllThrowless(es) && Throwless(e) && Throwless(f) ==> AllThrowless(more)
    ensures Exec(r, init, more) == Step(r, Step(r, Exec(r, init, es), e), f)
  {
    more := One(r, init, es, e);
    more := One(r, init, more, f);
  }

  lemma Three(r: Runner, init: State, es: seq<Event>, e: Event, f: Event, g: Event) returns (more: seq<Event>)
    ensures AllThrowless(es) && Throwless(e) && Throwless(f) && Throwless(g) ==> AllThrowless(more)
    ensures Exec(r, init, more) == Step(r, Step(r, Step(r, Exec(r, init, es), e), f), g)
  {
    more := Two(r, init, es, e, f);
    more := One(r, init, more, g);
  }

  /** The named steps, as runs of one event. */
  lemma InferStep(r: Runner, s: State, b: nat, end: InferEnd) returns (es: seq<Event>)
    requires Enabled(r, s, Infer(b, end))
    ensures Exec(r, s, es) == Inferred(r, s, b, end) && (end.Accepted? ==> AllThrowless(es))
  {
    es := [];
    es := One(r, s, es, Infer(b, end));
  }

  lemma PostStep(r: Runner, s: State, b: nat, answer: PostEnd) returns (es: seq<Event>)
    requires Enabled(r, s, Post(b, answer))
    ensures Exec(r, s, es) == Posted(r, s, b, answer) && (answer.Answered? ==> AllThrowless(es))
  {
    es := [];
    es := One(r, s, es, Post(b, answer));
  }

  ghost predicate Idle(r: Runner, s: State) {
    PoolsInv(r, s) && s.core.worker.Waiting? && !s.core.closed && s.core.inputs == []
  }

  /** A state from which a request can be submitted and dispatched in a batch of its own. */
  ghost predicate Ready(r: Runner, s: State) {
    Idle(r, s) && s.inputs.free != []
  }

  /** A batch of the one request x, preprocessed. */
  function Preprocessed(x: Image, promise: nat, params: seq<Params>, phase: Ideal.Phase): Ideal.Batch {
    Ideal.Batch([x], [promise], [], params, [Ideal.Done], phase, [Option.None])
  }

  /** The lone request x, with the worker about to dispatch it. */
  lemma SubmittedAndWoken(r: Runner, s: State, x: Image)
    requires Idle(r, s)
    ensures var s' := Step(r, Step(r, s, Submit(x)), Wake(true));
      && PoolsInv(r, s') && s' == s.(core := s'.core)
      && s'.core == s.core.(submitted := s.core.submitted + [x], inputs := [x], promises := [|s.core.submitted|], worker := s'.core.worker)
      && s'.core.worker.Batching?
  {
    CallersKeepPools(r, s, Step(r, Step(r, s, Submit(x)), Wake(true)));
  }

  lemma RoundOfOne(r: Runner, s: State, x: Image, wrapped: seq<Params>)
    requires PoolsInv(r, s) && |wrapped| == r.batch && s.core.worker.Batching? && s.core.inputs == [x] && s.inputs.free != []
    ensures Enabled(r, s, Round(wrapped)) && PoolsInv(r, Step(r, s, Round(wrapped)))
    ensures var s' := Step(r, s, Round(wrapped));
      && s'.core == s.core.(inputs := [], promises := [], worker := Ideal.AfterBatching(s.core).worker,
                            batches := s.core.batches + [Ideal.NewBatch([x], s.core.promises, [], wrapped)])
      && s'.loans == s.loans + [Loan(s.inputs.free[0], false, Option.None)]
      && s'.inputs == Taken(s.inputs) && s'.outputs == s.outputs && s'.staging == s.staging && s'.filters == s.filters
  {
    TakenConserves(s.inputs, Gather(HeldInput, s.loans));
    RoundKeepsPools(r, s, wrapped);
    RoundDispatches(r, s, wrapped);
    assert s.core.inputs[..1] == [x] && s.core.promises[..1] == s.core.promises;
  }

  /** Submits x and dispatches it alone. */
  lemma DispatchOne(r: Runner, init: State, es: seq<Event>, x: Image, wrapped: seq<Params>) returns (more: seq<Event>)
    requires |wrapped| == r.batch && Ready(r, Exec(r, init, es))
    ensures AllThrowless(es) ==> AllThrowless(more)
    ensures var s, s' := Exec(r, init, es), Exec(r, init, more);
      && PoolsInv(r, s')
      && s'.core == s.core.(submitted := s.core.submitted + [x], promises := [],
                            batches := s.core.batches + [Ideal.NewBatch([x], [|s.core.submitted|], [], wrapped)])
      && s'.loans == s.loans + [Loan(s.inputs.free[0], false, Option.None)]
      && s'.inputs == Taken(s.inputs) && s'.outputs == s.outputs && s'.staging == s.staging && s'.filters == s.filters
  {
    var s := Exec(r, init, es);
    SubmittedAndWoken(r, s, x);
    RoundOfOne(r, Step(r, Step(r, s, Submit(x)), Wake(true)), x, wrapped);
    more := Three(r, init, es, Submit(x), Wake(true), Round(wrapped));
  }

  lemma PreprocessOne(r: Runner, s: State, n: nat, x: Image, promise: nat, wrapped: seq<Params>, over: Option<Beside>)
    requires PoolsInv(r, s) && |wrapped| == r.batch && n < |s.loans| && s.staging > 0
    requires s.core.batches[n] == Ideal.NewBatch([x], [promise], [], wrapped) && !s.loans[n].returned
    requires PendingAt(s, n, 0) && OverEnabled(r, s, n, 0, over)
    ensures var s' := Step(r, s, Prep(n, 0, PrepDone, over));
      && PoolsInv(r, s') && s.loans[n].input < |s.inputs.memory| && |s.inputs.memory[s.loans[n].input]| == r.batch
      && s' == s.(core := s'.core, inputs := s.inputs.(memory :=
                    s.inputs.memory[s.loans[n].input := s.inputs.memory[s.loans[n].input][0 := r.pixels(Seen(x, over))]]))
      && s'.core == s.core.(batches := s.core.batches[n :=
           Preprocessed(x, promise, wrapped[0 := r.params(x)], Ideal.Awaiting(0))])
  {
    assert Tracked(s, n) && LoanInv(r, s.core.batches[n], s.loans[n]);
    PrepKeepsPools(r, s, n, 0, PrepDone, over);
    assert [Ideal.Pending][0 := Ideal.Done] == [Ideal.Done];
    assert seq(1, _ => Ideal.Pending) == [Ideal.Pending];
    assert seq(1, _ => Option<Outcome>.None) == [Option.None];
    assert s.loans == s.loans[n := s.loans[n]];
  }

  lemma AwaitOne(r: Runner, s: State, n: nat, x: Image, promise: nat, params: seq<Params>)
    requires Tracked(s, n) && !s.loans[n].returned
    requires s.core.batches[n] == Preprocessed(x, promise, params, Ideal.Awaiting(0))
    ensures Step(r, s, Work(n, Ideal.AwaitPre))
         == s.(core := s.core.(batches := s.core.batches[n := Preprocessed(x, promise, params, Ideal.Awaiting(1))]))
  {
    assert s.loans == s.loans[n := s.loans[n]];
  }

  /** How a batch is kept whose output waits for its postprocess. */
  function OutputPhase(r: Runner, features: seq<Feature>): Ideal.Phase {
    Ideal.PostQueued(if r.output.Pooled? then [] else features)
  }

  lemma InferOne(r: Runner, s: State, n: nat, x: Image, promise: nat, params: seq<Params>)
    requires Tracked(s, n) && !s.loans[n].returned && (r.output.Pooled? ==> Available(s.outputs))
    requires s.core.batches[n] == Preprocessed(x, promise, params, Ideal.Awaiting(1))
    ensures Enabled(r, s, Infer(n, Accepted))
    ensures var s', features := Inferred(r, s, n, Accepted), r.infer(s.inputs.memory[s.loans[n].input]);
      && s' == s.(core := s'.core, loans := s'.loans, inputs := s'.inputs, outputs := s'.outputs)
      && s'.core == s.core.(batches := s.core.batches[n := Preprocessed(x, promise, params, OutputPhase(r, features))])
      && s'.loans == s.loans[n := Loan(s.loans[n].input, true, if r.output.Pooled? then Some(s.outputs.free[0]) else Option.None)]
      && s'.inputs == Returned(s.inputs, s.loans[n].input)
      && s'.outputs == if r.output.Pooled? then Filled(Taken(s.outputs), s.outputs.free[0], features) else s.outputs
  {
  }

  /** Batch n, the last one, has been inferred; its features' first slot is that of y. */
  ghost predicate IsFed(r: Runner, s: State, n: nat, x: Image, promise: nat, params: seq<Params>, y: Image, stale: seq<Plane>)
    requires SlotWise(r) && r.batch > 0 && |stale| == r.batch
  {
    && Tracked(s, n) && s.loans[n].returned
    && (r.output.Pooled? <==> s.loans[n].output.Some?)
    && (exists f :: s.core.batches[n] == Preprocessed(x, promise, params, Ideal.PostQueued(f)))
    && Loaded(s, n).phase.PostQueued?
    && |Loaded(s, n).phase.features| == r.batch && Loaded(s, n).phase.features[0] == r.infer(stale[0 := r.pixels(y)])[0]
  }

  /** What taking batch n from its dispatch through its inference changes. */
  ghost predicate TakenThrough(r: Runner, s: State, s': State, n: nat)
    requires n < |s.loans| && n < |s.core.batches| && (r.output.Pooled? ==> Available(s.outputs))
  {
    && PoolsInv(r, s') && s'.staging == s.staging && s'.filters == s.filters
    && s'.core == s.core.(batches := s'.core.batches)
    && |s'.core.batches| == |s.core.batches| && s'.core.batches == s.core.batches[n := s'.core.batches[n]]
    && |s'.loans| == |s.loans| && s'.loans == s.loans[n := s'.loans[n]]
    && |s'.inputs.memory| == |s.inputs.memory| && s'.inputs.free == s.inputs.free + [s.loans[n].input]
    && (if r.output.Pooled?
        then && s'.loans[n].output == Some(s.outputs.free[0]) && |s'.outputs.memory| == |s.outputs.memory|
             && s'.outputs == Filled(Taken(s.outputs), s.outputs.free[0], s'.outputs.memory[s.outputs.free[0]])
        else s'.outputs == s.outputs)
  }

  /** Takes batch n, just dispatched, through preprocess and inference. */
  lemma InferDispatched(r: Runner, init: State, es: seq<Event>, n: nat, x: Image, promise: nat, over: Option<Beside>,
                        stale: seq<Plane>, wrapped: seq<Params>) returns (fed: seq<Event>)
    requires SlotWise(r) && r.batch > 0 && IsBuffer(r, stale, wrapped) && AllThrowless(es)
    requires var s := Exec(r, init, es);
      && PoolsInv(r, s) && n < |s.loans| && s.staging > 0 && (r.output.Pooled? ==> Available(s.outputs))
      && s.core.batches[n] == Ideal.NewBatch([x], [promise], [], wrapped) && !s.loans[n].returned
      && PendingAt(s, n, 0) && OverEnabled(r, s, n, 0, over)
    ensures AllThrowless(fed)
    ensures var s, s' := Exec(r, init, es), Exec(r, init, fed);
      TakenThrough(r, s, s', n) && IsFed(r, s', n, x, promise, wrapped[0 := r.params(x)], Seen(x, over), stale)
  {
    var three := ThroughInference(r, Exec(r, init, es), n, x, promise, over, stale, wrapped);
    ExecJoins(r, init, es, three);
    fed := es + three;
  }

  lemma ThroughInference(r: Runner, s: State, n: nat, x: Image, promise: nat, over: Option<Beside>, stale: seq<Plane>, wrapped: seq<Params>)
    returns (three: seq<Event>)
    requires SlotWise(r) && r.batch > 0 && IsBuffer(r, stale, wrapped)
    requires PoolsInv(r, s) && n < |s.loans| && s.staging > 0 && (r.output.Pooled? ==> Available(s.outputs))
    requires s.core.batches[n] == Ideal.NewBatch([x], [promise], [], wrapped) && !s.loans[n].returned
    requires PendingAt(s, n, 0) && OverEnabled(r, s, n, 0, over)
    ensures AllThrowless(three)
    ensures var s' := Exec(r, s, three);
      TakenThrough(r, s, s', n) && IsFed(r, s', n, x, promise, wrapped[0 := r.params(x)], Seen(x, over), stale)
  {
    var two := ReadyToInfer(r, s, n, x, promise, over, wrapped);
    var one := InferredNow(r, Exec(r, s, two), n, x, promise, wrapped[0 := r.params(x)], Seen(x, over), stale);
    ExecJoins(r, s, two, one);
    TakenFrom(r, s, Exec(r, s, two), Exec(r, Exec(r, s, two), one), n);
    three := two + one;
  }

  lemma TakenFrom(r: Runner, s: State, t: State, u: State, n: nat)
    requires n < |s.loans| && n < |s.core.batches| && (r.output.Pooled? ==> Available(s.outputs))
    requires t == s.(core := t.core, inputs := s.inputs.(memory := t.inputs.memory)) && |t.inputs.memory| == |s.inputs.memory|
    requires |t.core.batches| == |s.core.batches| && t.core == s.core.(batches := s.core.batches[n := t.core.batches[n]])
    requires TakenThrough(r, t, u, n)
    ensures TakenThrough(r, s, u, n)
  {
    assert u.core.batches == t.core.batches[n := u.core.batches[n]];
  }

  lemma InferredNow(r: Runner, s: State, n: nat, x: Image, promise: nat, params: seq<Params>, y: Image, stale: seq<Plane>)
    returns (one: seq<Event>)
    requires SlotWise(r) && r.batch > 0 && |stale| == r.batch && PoolsInv(r, s) && Tracked(s, n) && !s.loans[n].returned
    requires r.output.Pooled? ==> Available(s.outputs)
    requires |s.inputs.memory[s.loans[n].input]| == r.batch && s.inputs.memory[s.loans[n].input][0] == r.pixels(y)
    requires s.core.batches[n] == Preprocessed(x, promise, params, Ideal.Awaiting(1))
    ensures AllThrowless(one)
    ensures var s' := Exec(r, s, one); TakenThrough(r, s, s', n) && IsFed(r, s', n, x, promise, params, y, stale)
  {
    InferOne(r, s, n, x, promise, params);
    InferKeepsPools(r, s, n, Accepted);
    FedNow(r, s, Inferred(r, s, n, Accepted), n, x, promise, params, y, stale);
    one := InferStep(r, s, n, Accepted);
  }

  lemma ReadyToInfer(r: Runner, s: State, n: nat, x: Image, promise: nat, over: Option<Beside>, wrapped: seq<Params>)
    returns (two: seq<Event>)
    requires PoolsInv(r, s) && |wrapped| == r.batch && n < |s.loans| && s.staging > 0
    requires s.core.batches[n] == Ideal.NewBatch([x], [promise], [], wrapped) && !s.loans[n].returned
    requires PendingAt(s, n, 0) && OverEnabled(r, s, n, 0, over)
    ensures AllThrowless(two)
    ensures var s' := Exec(r, s, two);
      && PoolsInv(r, s') && Tracked(s', n) && s' == s.(core := s'.core, inputs := s.inputs.(memory := s'.inputs.memory))
      && |s'.inputs.memory| == |s.inputs.memory|
      && |s'.inputs.memory[s.loans[n].input]| == r.batch && s'.inputs.memory[s.loans[n].input][0] == r.pixels(Seen(x, over))
      && s'.core == s.core.(batches := s.core.batches[n :=
           Preprocessed(x, promise, wrapped[0 := r.params(x)], Ideal.Awaiting(1))])
  {
    PreprocessOne(r, s, n, x, promise, wrapped, over);
    two := [];
    two := One(r, s, two, Prep(n, 0, PrepDone, over));
    var s1 := Exec(r, s, two);
    assert Tracked(s1, n);
    AwaitOne(r, s1, n, x, promise, wrapped[0 := r.params(x)]);
    StepKeepsPools(r, s1, Work(n, Ideal.AwaitPre));
    two := One(r, s, two, Work(n, Ideal.AwaitPre));
    assert Tracked(Exec(r, s, two), n);
  }

  lemma FedNow(r: Runner, s: State, s': State, n: nat, x: Image, promise: nat, params: seq<Params>, y: Image, stale: seq<Plane>)
    requires SlotWise(r) && r.batch > 0 && |stale| == r.batch && Tracked(s, n) && LoansInv(r, s')
    requires r.output.Pooled? ==> Available(s.outputs)
    requires |s.inputs.memory[s.loans[n].input]| == r.batch && s.inputs.memory[s.loans[n].input][0] == r.pixels(y)
    requires var features := r.infer(s.inputs.memory[s.loans[n].input]);
      && s'.core == s.core.(batches := s.core.batches[n := Preprocessed(x, promise, params, OutputPhase(r, features))])
      && s'.loans == s.loans[n := Loan(s.loans[n].input, true, if r.output.Pooled? then Some(s.outputs.free[0]) else Option.None)]
      && s'.outputs == if r.output.Pooled? then Filled(Taken(s.outputs), s.outputs.free[0], features) else s.outputs
    ensures IsFed(r, s', n, x, promise, params, y, stale)
  {
    var planes := s.inputs.memory[s.loans[n].input];
    InferSlot(r, planes, 0, stale[0 := r.pixels(y)], 0);
    assert Tracked(s', n);
    assert Loaded(s', n).phase.features == r.infer(planes);
  }

  /** Submits x and takes it, in a batch of its own, through preprocess and inference. */
  lemma FeedOne(r: Runner, init: State, es: seq<Event>, x: Image, stale: seq<Plane>, wrapped: seq<Params>) returns (fed: seq<Event>)
    requires SlotWise(r) && r.batch > 0 && IsBuffer(r, stale, wrapped) && AllThrowless(es)
    requires var s := Exec(r, init, es); Ready(r, s) && s.staging > 0 && (r.output.Pooled? ==> Available(s.outputs))
    ensures AllThrowless(fed)
    ensures var s, s', n := Exec(r, init, es), Exec(r, init, fed), |Exec(r, init, es).core.batches|;
      && Ready(r, s') && |s'.core.batches| == n + 1 && s'.core.batches[..n] == s.core.batches
      && |s'.loans| == n + 1 && s'.loans[..n] == s.loans
      && s'.core.submitted == s.core.submitted + [x] && s'.staging == s.staging && s'.filters == s.filters
      && |s'.inputs.memory| == |s.inputs.memory|
      && IsFed(r, s', n, x, |s.core.submitted|, wrapped[0 := r.params(x)], x, stale)
      && (if r.output.Pooled?
          then && s'.loans[n].output == Some(s.outputs.free[0]) && |s'.outputs.memory| == |s.outputs.memory|
               && s'.outputs == Filled(Taken(s.outputs), s.outputs.free[0], s'.outputs.memory[s.outputs.free[0]])
          else s'.outputs == s.outputs)
  {
    var s := Exec(r, init, es);
    fed := DispatchOne(r, init, es, x, wrapped);
    fed := InferDispatched(r, init, fed, |s.core.batches|, x, |s.core.submitted|, Option.None, stale, wrapped);
  }

  lemma PostOne(r: Runner, s: State, n: nat, x: Image, promise: nat, params: seq<Params>, found: bool, f: seq<Feature>)
    requires Tracked(s, n) && (r.output.Pooled? <==> s.loans[n].output.Some?) && s.filters > 0
    requires s.core.batches[n] == Preprocessed(x, promise, params, Ideal.PostQueued(f))
    ensures var s', answers := Step(r, s, Post(n, Answered(found))), r.post(Loaded(s, n).phase.features, params);
      && s' == s.(core := s'.core, loans := s'.loans, outputs := s'.outputs, filters := s'.filters)
      && s'.core == s.core.(batches := s.core.batches[n := Preprocessed(x, promise, params, Ideal.Delivering(answers, 0))])
      && s'.loans == s.loans[n := s.loans[n].(output := Option.None)]
      && s'.outputs == (if r.output.Pooled? then OutputRead(s.outputs, s.loans[n].output.value, r.output.copies) else s.outputs)
      && s'.filters == if r.filtered && !found then s.filters - 1 else s.filters
  {
  }

  lemma DeliverOne(r: Runner, s: State, n: nat, x: Image, promise: nat, params: seq<Params>, answers: seq<Answer>)
    requires Tracked(s, n) && answers != []
    requires s.core.batches[n] == Preprocessed(x, promise, params, Ideal.Delivering(answers, 0))
    ensures Step(r, s, Work(n, Ideal.SetValue(true)))
         == s.(core := s.core.(batches := s.core.batches[n :=
              Preprocessed(x, promise, params, Ideal.Delivering(answers, 1)).(results := [Some(Value(answers[0]))])]))
  {
    assert s.loans == s.loans[n := s.loans[n]];
    assert [Option<Outcome>.None][0 := Some(Value(answers[0]))] == [Some(Value(answers[0]))];
  }

  lemma PostedAndDelivered(r: Runner, s: State, n: nat, x: Image, promise: nat, params: seq<Params>, found: bool)
    requires PoolsInv(r, s) && Tracked(s, n) && (r.output.Pooled? <==> s.loans[n].output.Some?) && s.filters > 0
    requires exists f :: s.core.batches[n] == Preprocessed(x, promise, params, Ideal.PostQueued(f))
    requires r.post(Loaded(s, n).phase.features, params) != []
    ensures var s', answers := Step(r, Step(r, s, Post(n, Answered(found))), Work(n, Ideal.SetValue(true))),
                               r.post(Loaded(s, n).phase.features, params);
      && PoolsInv(r, s') && s' == s.(core := s'.core, loans := s'.loans, outputs := s'.outputs, filters := s'.filters)
      && s'.core == s.core.(batches := s.core.batches[n :=
           Preprocessed(x, promise, params, Ideal.Delivering(answers, 1)).(results := [Some(Value(answers[0]))])])
      && |s'.loans| == |s.loans|
      && s'.outputs == (if r.output.Pooled? then OutputRead(s.outputs, s.loans[n].output.value, r.output.copies) else s.outputs)
      && s'.filters == if r.filtered && !found then s.filters - 1 else s.filters
  {
    var f :| s.core.batches[n] == Preprocessed(x, promise, params, Ideal.PostQueued(f));
    PostOne(r, s, n, x, promise, params, found, f);
    StepKeepsPools(r, s, Post(n, Answered(found)));
    var s1 := Step(r, s, Post(n, Answered(found)));
    assert Tracked(s1, n);
    DeliverOne(r, s1, n, x, promise, params, r.post(Loaded(s, n).phase.features, params));
    StepKeepsPools(r, s1, Work(n, Ideal.SetValue(true)));
  }

  /** Postprocesses batch n and delivers its one answer. */
  lemma AnswerOne(r: Runner, init: State, es: seq<Event>, n: nat, x: Image, promise: nat, params: seq<Params>, y: Image,
                  found: bool, stale: seq<Plane>) returns (more: seq<Event>)
    requires SlotWise(r) && r.batch > 0 && IsBuffer(r, stale, params) && params[0] == r.params(x) && AllThrowless(es)
    requires var s := Exec(r, init, es); PoolsInv(r, s) && s.filters > 0 && IsFed(r, s, n, x, promise, params, y, stale)
    ensures AllThrowless(more)
    ensures var s, s' := Exec(r, init, es), Exec(r, init, more);
      && PoolsInv(r, s') && s'.staging == s.staging && s'.inputs == s.inputs
      && s'.core == s.core.(batches := s'.core.batches)
      && |s'.core.batches| == |s.core.batches| && s'.core.batches == s.core.batches[n := s'.core.batches[n]]
      && s'.core.batches[n].promises == [promise]
      && s'.core.batches[n].results == [Some(Value(Mixed(r, stale, params, x, y)))]
      && |s'.loans| == |s.loans|
      && s'.outputs == (if r.output.Pooled? then OutputRead(s.outputs, s.loans[n].output.value, r.output.copies) else s.outputs)
      && s'.filters == if r.filtered && !found then s.filters - 1 else s.filters
  {
    var s := Exec(r, init, es);
    PostSlot(r, Loaded(s, n).phase.features, params, 0, r.infer(stale[0 := r.pixels(y)]), params[0 := r.params(x)], 0);
    PostedAndDelivered(r, s, n, x, promise, params, found);
    more := Two(r, init, es, Post(n, Answered(found)), Work(n, Ideal.SetValue(true)));
  }

  lemma ReturnOne(r: Runner, init: State, es: seq<Event>, k: nat) returns (more: seq<Event>)
    requires PoolsInv(r, Exec(r, init, es)) && k in Exec(r, init, es).outputs.owed && AllThrowless(es)
    ensures AllThrowless(more)
    ensures var s, s' := Exec(r, init, es), Exec(r, init, more);
      PoolsInv(r, s') && s' == s.(outputs := Paid(s.outputs, k))
  {
    OwedReturns(r, Exec(r, init, es), k);
    more := One(r, init, es, Return(k));
  }
}
