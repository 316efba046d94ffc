/** The pipelined scheduler's progress: when a request can still be answered. A slot that is lost is lost for good, and
    Acquire waits for a free one without limit (include/device/InferTensorBufferPool.h). What postprocess finds is not computed
    here: `finds(p)` says whether it finds anything for request p, and the results are for all or for some such answers. */
module AsyncProgress {
  import opened Runner
  import opened BufferSlots
  import opened Gathering
  import opened AsyncScheduler
  import opened AsyncPromises
  import opened AsyncAnswers

  /** A stage that returns, or a release callback. */
  predicate Serving(e: Event, finds: nat -> bool) {
    match e
    case Submit(_) => false
    case Pre(_, pre, _, _) => pre.Prepared?
    case Infer(_, end) => end.Accepted?
    case Post(p, answer) => answer == Answered(finds(p))
    case Return(_) => true
  }

  ghost predicate AllServing(es: seq<Event>, finds: nat -> bool) {
    forall k :: 0 <= k < |es| ==> Serving(es[k], finds)
  }

  ghost predicate AllServed(s: State) {
    forall p :: 0 <= p < |s.requests| ==> s.requests[p].stage.Ended?
  }

  ghost predicate CanServe(cuda: bool, r: Runner, s: State, finds: nat -> bool) {
    exists es :: AllServing(es, finds) && AllServed(Exec(cuda, r, s, es))
  }

  ghost predicate CanServeAll(cuda: bool, r: Runner, s: State) {
    exists finds :: CanServe(cuda, r, s, finds)
  }

  predicate BeforeInfer(q: Request) {
    q.stage.PreQueued? || q.stage.InferQueued?
  }

  ghost predicate InputsLeft(s: State) {
    |s.inputs.lost| < |s.inputs.memory|
  }

  /** Some output slot is free, about to be returned, or held by a request. */
  ghost predicate OutputsLeft(s: State) {
    s.outputs.free != [] || s.outputs.owed != multiset{} || Gather(HeldOutput, s.requests) != multiset{}
  }

  /** Waits for a slot of a pool that has none left. */
  ghost predicate Starved(cuda: bool, r: Runner, s: State, q: Request) {
    || (cuda && q.stage.PreQueued? && !InputsLeft(s))
    || (UsesStaging(cuda, r) && q.stage.PreQueued? && s.staging == 0)
    || (UsesOutputPool(cuda, r) && BeforeInfer(q) && !OutputsLeft(s))
  }

  /** The same, or bound to wait for a filter slot. */
  ghost predicate Stuck(cuda: bool, r: Runner, s: State, q: Request) {
    Starved(cuda, r, s, q) || (UsesFilters(cuda, r) && !q.stage.Ended? && s.filters == 0)
  }

  ghost predicate NoneStarved(cuda: bool, r: Runner, s: State) {
    forall p :: 0 <= p < |s.requests| ==> !Starved(cuda, r, s, s.requests[p])
  }

  ghost predicate NoneStuck(cuda: bool, r: Runner, s: State) {
    forall p :: 0 <= p < |s.requests| ==> !Stuck(cuda, r, s, s.requests[p])
  }

  /** The requests still in the pipeline. */
  function Unserved(qs: seq<Request>): nat {
    if qs == [] then 0 else Unserved(qs[..|qs| - 1]) + if qs[|qs| - 1].stage.Ended? then 0 else 1
  }

  lemma {:induction false} UnservedUpdate(qs: seq<Request>, p: nat, q: Request)
    requires p < |qs|
    ensures Unserved(qs[p := q]) + (if qs[p].stage.Ended? then 0 else 1) == Unserved(qs) + if q.stage.Ended? then 0 else 1
  {
    var n := |qs| - 1;
    if p < n {
      UnservedUpdate(qs[..n], p, q);
      assert qs[p := q][..n] == qs[..n][p := q];
    } else {
      assert qs[p := q][..n] == qs[..n];
    }
  }

  lemma {:induction false} UnservedZeroIff(qs: seq<Request>)
    ensures Unserved(qs) == 0 <==> forall p :: 0 <= p < |qs| ==> qs[p].stage.Ended?
  {
    if qs != [] {
      UnservedZeroIff(qs[..|qs| - 1]);
    }
  }

  /** Filter slots enough for what the requests will find. */
  ghost predicate Enough(cuda: bool, r: Runner, s: State, finds: nat -> bool) {
    UsesFilters(cuda, r) ==> Unserved(s.requests) <= s.filters || (s.filters > 0 && forall p :: finds(p))
  }

  /** How many output slots are left can be counted when each is returned once. */
  lemma OutputsLeftIff(cuda: bool, r: Runner, s: State)
    requires PoolsInv(cuda, r, s) && Private(cuda, r)
    ensures OutputsLeft(s) <==> |s.outputs.lost| < |s.outputs.memory|
  {
    ConservedApart(s.outputs, Gather(HeldOutput, s.requests), 0);
  }

  function Weight(r: Runner, q: Request): nat {
    var c := if r.output.Pooled? then 1 + r.output.copies else 1;
    match q.stage
    case PreQueued => 3 + c
    case InferQueued(_, _) => 2 + c
    case PostQueued(_, _) => 1 + c
    case Ended(_) => 0
  }

  function TotalWeight(r: Runner, qs: seq<Request>): nat {
    if qs == [] then 0 else TotalWeight(r, qs[..|qs| - 1]) + Weight(r, qs[|qs| - 1])
  }

  lemma {:induction false} TotalWeightUpdate(r: Runner, qs: seq<Request>, p: nat, q: Request)
    requires p < |qs|
    ensures TotalWeight(r, qs[p := q]) + Weight(r, qs[p]) == TotalWeight(r, qs) + Weight(r, q)
  {
    var n := |qs| - 1;
    if p < n {
      TotalWeightUpdate(r, qs[..n], p, q);
      assert qs[p := q][..n] == qs[..n][p := q];
    } else {
      assert qs[p := q][..n] == qs[..n];
    }
  }

  /** Work left in the pipeline. */
  function Measure(r: Runner, s: State): nat {
    TotalWeight(r, s.requests) + |s.outputs.owed|
  }

  /** What every serving step does: it uses work up and leaves the pools with slots if they had some. */
  ghost predicate Advances(cuda: bool, r: Runner, s: State, s': State) {
    && Measure(r, s') < Measure(r, s)
    && (InputsLeft(s) ==> InputsLeft(s'))
    && (UsesOutputPool(cuda, r) && OutputsLeft(s) ==> OutputsLeft(s'))
    && s'.staging == s.staging
  }

  lemma PreAdvances(cuda: bool, r: Runner, s: State, p: nat, wrapped: seq<Params>, over: Option<(nat, Image)>)
    requires Enabled(cuda, r, s, Pre(p, Prepared, wrapped, over))
    ensures Advances(cuda, r, s, Preprocessed(cuda, r, s, p, Prepared, wrapped, over))
  {
    var s' := Preprocessed(cuda, r, s, p, Prepared, wrapped, over);
    TotalWeightUpdate(r, s.requests, p, s'.requests[p]);
    GatherSwap(HeldOutput, s.requests, p, s'.requests[p]);
  }

  lemma InferAdvances(cuda: bool, r: Runner, s: State, p: nat)
    requires Enabled(cuda, r, s, Infer(p, Accepted))
    ensures Advances(cuda, r, s, Inferred(cuda, r, s, p, Accepted))
  {
    var s' := Inferred(cuda, r, s, p, Accepted);
    TotalWeightUpdate(r, s.requests, p, s'.requests[p]);
    if UsesOutputPool(cuda, r) {
      GatherHas(HeldOutput, s'.requests, p);
      assert s.outputs.free[0] in Gather(HeldOutput, s'.requests);
    }
  }

  lemma PostAdvances(cuda: bool, r: Runner, s: State, p: nat, found: bool)
    requires PoolsInv(cuda, r, s) && Enabled(cuda, r, s, Post(p, Answered(found)))
    ensures Advances(cuda, r, s, Postprocessed(cuda, r, s, p, Answered(found)))
  {
    if s.requests[p].stage.output.InSlot? {
      PooledPostAdvances(cuda, r, s, p, found);
    } else {
      OwnPostAdvances(cuda, r, s, p, found);
    }
  }

  lemma OwnPostAdvances(cuda: bool, r: Runner, s: State, p: nat, found: bool)
    requires Enabled(cuda, r, s, Post(p, Answered(found))) && s.requests[p].stage.output.Own?
    ensures Advances(cuda, r, s, Postprocessed(cuda, r, s, p, Answered(found)))
  {
    var s' := Postprocessed(cuda, r, s, p, Answered(found));
    TotalWeightUpdate(r, s.requests, p, s'.requests[p]);
    GatherSwap(HeldOutput, s.requests, p, s'.requests[p]);
  }

  lemma PooledPostAdvances(cuda: bool, r: Runner, s: State, p: nat, found: bool)
    requires PoolsInv(cuda, r, s) && Enabled(cuda, r, s, Post(p, Answered(found))) && s.requests[p].stage.output.InSlot?
    ensures Advances(cuda, r, s, Postprocessed(cuda, r, s, p, Answered(found)))
  {
    PooledOutputOwed(cuda, r, s, p, found);
    TotalWeightUpdate(r, s.requests, p, Postprocessed(cuda, r, s, p, Answered(found)).requests[p]);
  }

  lemma PooledOutputOwed(cuda: bool, r: Runner, s: State, p: nat, found: bool)
    requires PoolsInv(cuda, r, s) && Enabled(cuda, r, s, Post(p, Answered(found))) && s.requests[p].stage.output.InSlot?
    ensures var owed := Postprocessed(cuda, r, s, p, Answered(found)).outputs.owed;
      r.output.Pooled? && |owed| == |s.outputs.owed| + 1 + r.output.copies && owed != multiset{}
  {
    GatherHas(HeldOutput, s.requests, p);
    assert s.requests[p].stage.output.slot in Gather(HeldOutput, s.requests);
    OwingCount(s.outputs.owed, s.requests[p].stage.output.slot, 1 + r.output.copies);
    assert s.requests[p].stage.output.slot in Postprocessed(cuda, r, s, p, Answered(found)).outputs.owed;
  }

  lemma OwingCount(owed: multiset<nat>, k: nat, n: nat)
    ensures |owed[k := owed[k] + n]| == |owed| + n
  {
    assert owed[k := owed[k] + n] == owed + multiset{}[k := n];
  }

  lemma ServingAdvances(cuda: bool, r: Runner, s: State, e: Event, finds: nat -> bool)
    requires PoolsInv(cuda, r, s) && Enabled(cuda, r, s, e) && Serving(e, finds)
    ensures Advances(cuda, r, s, Step(cuda, r, s, e))
  {
    match e
    case Pre(p, _, wrapped, over) => PreAdvances(cuda, r, s, p, wrapped, over);
    case Infer(p, _) => InferAdvances(cuda, r, s, p);
    case Post(p, _) => PostAdvances(cuda, r, s, p, finds(p));
    case Return(k) =>
  }

  lemma NextPost(cuda: bool, r: Runner, s: State, p: nat, found: bool, stale: seq<Plane>, staleParams: seq<Params>)
    requires SlotWise(r) && r.batch > 0 && IsBuffer(r, stale, staleParams) && (UsesFilters(cuda, r) ==> s.filters > 0)
    requires p < |s.requests| && s.requests[p].stage.PostQueued? && RequestInv(Anyones, r, s, s.requests[p], stale, staleParams)
    ensures Enabled(cuda, r, s, Post(p, Answered(found)))
  {
  }

  lemma NextInfer(cuda: bool, r: Runner, s: State, p: nat)
    requires PoolsInv(cuda, r, s) && p < |s.requests| && s.requests[p].stage.InferQueued?
    requires s.requests[p].stage.buffer < |s.inputs.memory|
    requires Gather(HeldOutput, s.requests) == s.outputs.owed == multiset{} && !Starved(cuda, r, s, s.requests[p])
    ensures Enabled(cuda, r, s, Infer(p, Accepted))
  {
    assert UsesOutputPool(cuda, r) ==> s.outputs.free[0] in s.outputs.free;
  }

  lemma NextPre(cuda: bool, r: Runner, s: State, p: nat, wrapped: seq<Params>)
    requires PoolsInv(cuda, r, s) && p < |s.requests| && s.requests[p].stage.PreQueued? && r.batch > 0 && |wrapped| == r.batch
    requires Gather(HeldInput, s.requests) == multiset{} && !Starved(cuda, r, s, s.requests[p])
    ensures Enabled(cuda, r, s, Pre(p, Prepared, wrapped, Option.None))
  {
    if cuda {
      ConservedApart(s.inputs, multiset{}, 0);
      TakenConserves(s.inputs, multiset{});
    }
  }

  /** A serving step that can be taken next. */
  lemma NextServing(cuda: bool, r: Runner, s: State, finds: nat -> bool, stale: seq<Plane>, staleParams: seq<Params>) returns (e: Event)
    requires SlotWise(r) && r.batch > 0 && IsBuffer(r, stale, staleParams) && Inv(Anyones, cuda, r, s, stale, staleParams)
    requires NoneStarved(cuda, r, s) && !AllServed(s) && (UsesFilters(cuda, r) ==> s.filters > 0)
    ensures Serving(e, finds) && Enabled(cuda, r, s, e)
  {
    var p :| 0 <= p < |s.requests| && !s.requests[p].stage.Ended?;
    if post :| 0 <= post < |s.requests| && s.requests[post].stage.PostQueued? {
      NextPost(cuda, r, s, post, finds(post), stale, staleParams);
      return Post(post, Answered(finds(post)));
    }
    if k :| k in s.outputs.owed {
      return Return(k);
    }
    GatherNothing(HeldOutput, s.requests);
    if q :| 0 <= q < |s.requests| && s.requests[q].stage.InferQueued? {
      assert RequestInv(Anyones, r, s, s.requests[q], stale, staleParams);
      NextInfer(cuda, r, s, q);
      return Infer(q, Accepted);
    }
    GatherNothing(HeldInput, s.requests);
    NextPre(cuda, r, s, p, staleParams);
    return Pre(p, Prepared, staleParams, Option.None);
  }

  lemma ServingKeepsUnstarved(cuda: bool, r: Runner, s: State, e: Event, finds: nat -> bool, p: nat)
    requires Enabled(cuda, r, s, e) && Serving(e, finds) && Advances(cuda, r, s, Step(cuda, r, s, e))
    requires p < |s.requests| && !Starved(cuda, r, s, s.requests[p])
    ensures var s' := Step(cuda, r, s, e); |s'.requests| == |s.requests| && !Starved(cuda, r, s', s'.requests[p])
  {
  }

  lemma ServingKeepsNoneStarved(cuda: bool, r: Runner, s: State, e: Event, finds: nat -> bool)
    requires Enabled(cuda, r, s, e) && Serving(e, finds) && Advances(cuda, r, s, Step(cuda, r, s, e)) && NoneStarved(cuda, r, s)
    ensures NoneStarved(cuda, r, Step(cuda, r, s, e))
  {
    var s' := Step(cuda, r, s, e);
    assert |s'.requests| == |s.requests|;
    forall p | 0 <= p < |s'.requests|
      ensures !Starved(cuda, r, s', s'.requests[p])
    {
      ServingKeepsUnstarved(cuda, r, s, e, finds, p);
    }
  }

  /** Requests end in a serving step only by being answered; one filter slot is kept for each that finds nothing. */
  ghost predicate Answers(cuda: bool, r: Runner, s: State, s': State, finds: nat -> bool) {
    && |s'.requests| == |s.requests|
    && (forall p :: 0 <= p < |s.requests| ==>
          && s'.requests[p].x == s.requests[p].x
          && (s.requests[p].stage.Ended? ==> s'.requests[p] == s.requests[p])
          && (!s.requests[p].stage.Ended? && s'.requests[p].stage.Ended? ==>
                s'.requests[p].result.Some? && s'.requests[p].result.value.Value?))
    && (UsesFilters(cuda, r) && (forall p :: finds(p)) ==> s'.filters == s.filters)
    && (UsesFilters(cuda, r) && (forall p :: !finds(p)) ==>
          s.filters + Unserved(s'.requests) == s'.filters + Unserved(s.requests))
    && Unserved(s'.requests) <= Unserved(s.requests)
    && (UsesFilters(cuda, r) ==> s.filters + Unserved(s'.requests) <= s'.filters + Unserved(s.requests))
  }

  lemma ServingAnswers(cuda: bool, r: Runner, s: State, e: Event, finds: nat -> bool)
    requires Enabled(cuda, r, s, e) && Serving(e, finds)
    ensures Answers(cuda, r, s, Step(cuda, r, s, e), finds)
  {
    var s' := Step(cuda, r, s, e);
    if !e.Return? {
      UnservedUpdate(s.requests, e.p, s'.requests[e.p]);
    }
  }

  /** Takes a serving step. */
  lemma ServeOne(cuda: bool, r: Runner, s: State, finds: nat -> bool, stale: seq<Plane>, staleParams: seq<Params>) returns (e: Event)
    requires SlotWise(r) && r.batch > 0 && IsBuffer(r, stale, staleParams) && Inv(Anyones, cuda, r, s, stale, staleParams)
    requires NoneStarved(cuda, r, s) && Enough(cuda, r, s, finds) && !AllServed(s)
    ensures Serving(e, finds)
    ensures var s' := Step(cuda, r, s, e);
      && Inv(Anyones, cuda, r, s', stale, staleParams) && NoneStarved(cuda, r, s') && Enough(cuda, r, s', finds)
      && Advances(cuda, r, s, s') && Answers(cuda, r, s, s', finds)
  {
    UnservedZeroIff(s.requests);
    e := NextServing(cuda, r, s, finds, stale, staleParams);
    ServingAdvances(cuda, r, s, e, finds);
    ServingAnswers(cuda, r, s, e, finds);
    ServingKeepsNoneStarved(cuda, r, s, e, finds);
    StepKeepsInv(Anyones, cuda, r, s, e, stale, staleParams);
  }

  lemma StepThenRest(cuda: bool, r: Runner, s: State, e: Event, rest: seq<Event>)
    ensures Exec(cuda, r, s, [e] + rest) == Exec(cuda, r, Step(cuda, r, s, e), rest)
  {
    ExecJoins(cuda, r, s, [e], rest);
    ExecOneMore(cuda, r, s, [], e);
    assert [] + [e] == [e];
  }

  ghost predicate LeavesSlots(cuda: bool, r: Runner, s: State, s': State) {
    && (InputsLeft(s) ==> InputsLeft(s'))
    && (UsesOutputPool(cuda, r) && OutputsLeft(s) ==> OutputsLeft(s'))
    && s'.staging == s.staging
  }

  lemma {:induction false} ServeAll(cuda: bool, r: Runner, s: State, finds: nat -> bool, stale: seq<Plane>, staleParams: seq<Params>)
    returns (es: seq<Event>)
    requires SlotWise(r) && r.batch > 0 && IsBuffer(r, stale, staleParams) && Inv(Anyones, cuda, r, s, stale, staleParams)
    requires NoneStarved(cuda, r, s) && Enough(cuda, r, s, finds)
    ensures AllServing(es, finds)
    ensures var s' := Exec(cuda, r, s, es);
      AllServed(s') && Answers(cuda, r, s, s', finds) && LeavesSlots(cuda, r, s, s')
    decreases Measure(r, s)
  {
    es := [];
    if !AllServed(s) {
      var e := ServeOne(cuda, r, s, finds, stale, staleParams);
      var s1 := Step(cuda, r, s, e);
      var rest := ServeAll(cuda, r, s1, finds, stale, staleParams);
      es := OneAndRest(cuda, r, s, e, rest, finds);
    }
  }

  lemma OneAndRest(cuda: bool, r: Runner, s: State, e: Event, rest: seq<Event>, finds: nat -> bool) returns (es: seq<Event>)
    requires Serving(e, finds) && AllServing(rest, finds)
    requires var t := Step(cuda, r, s, e); var u := Exec(cuda, r, t, rest);
      && Answers(cuda, r, s, t, finds) && Advances(cuda, r, s, t) && Answers(cuda, r, t, u, finds) && LeavesSlots(cuda, r, t, u)
    ensures AllServing(es, finds) && Exec(cuda, r, s, es) == Exec(cuda, r, Step(cuda, r, s, e), rest)
    ensures Answers(cuda, r, s, Exec(cuda, r, s, es), finds) && LeavesSlots(cuda, r, s, Exec(cuda, r, s, es))
  {
    es := [e] + rest;
    StepThenRest(cuda, r, s, e, rest);
    AnswersJoin(cuda, r, s, Step(cuda, r, s, e), Exec(cuda, r, Step(cuda, r, s, e), rest), finds);
  }

  lemma AnswersJoin(cuda: bool, r: Runner, s: State, t: State, u: State, finds: nat -> bool)
    requires Answers(cuda, r, s, t, finds) && Answers(cuda, r, t, u, finds)
    ensures Answers(cuda, r, s, u, finds)
  {
  }

  // ---------- and no longer ----------

  /** A step in which nothing throws and nothing is refused. */
  predicate Throwless(e: Event) {
    match e
    case Submit(_) => true
    case Pre(_, pre, _, _) => pre.Prepared?
    case Infer(_, end) => end.Accepted?
    case Post(_, answer) => answer.Answered?
    case Return(_) => true
  }

  ghost predicate EndedWithoutValue(q: Request) {
    q.stage.Ended? && !(q.result.Some? && q.result.value.Value?)
  }

  ghost predicate Waits(cuda: bool, r: Runner, s: State, q: Request) {
    Stuck(cuda, r, s, q) && q.result.None?
  }

  ghost predicate Hopeless(cuda: bool, r: Runner, s: State, p: nat) {
    p < |s.requests| && (Waits(cuda, r, s, s.requests[p]) || EndedWithoutValue(s.requests[p]))
  }

  /** Where one step can take a stuck request. */
  ghost predicate StillStuck(cuda: bool, r: Runner, s: State, e: Event, p: nat) {
    p < |s.requests| && (Waits(cuda, r, s, s.requests[p]) || (!Throwless(e) && EndedWithoutValue(s.requests[p])))
  }

  lemma StuckOnInputs(r: Runner, s: State, e: Event, p: nat)
    requires PoolsInv(true, r, s) && Enabled(true, r, s, e) && p < |s.requests| && s.requests[p].result.None?
    requires s.requests[p].stage.PreQueued? && !InputsLeft(s)
    ensures StillStuck(true, r, Step(true, r, s, e), e, p)
  {
    ConservedApart(s.inputs, Gather(HeldInput, s.requests), 0);
  }

  lemma StuckOnStaging(cuda: bool, r: Runner, s: State, e: Event, p: nat)
    requires Enabled(cuda, r, s, e) && p < |s.requests| && s.requests[p].result.None?
    requires s.requests[p].stage.PreQueued? && UsesStaging(cuda, r) && s.staging == 0
    ensures StillStuck(cuda, r, Step(cuda, r, s, e), e, p)
  {
  }

  lemma StuckOnFilters(cuda: bool, r: Runner, s: State, e: Event, p: nat)
    requires Enabled(cuda, r, s, e) && p < |s.requests| && s.requests[p].result.None?
    requires !s.requests[p].stage.Ended? && UsesFilters(cuda, r) && s.filters == 0
    ensures StillStuck(cuda, r, Step(cuda, r, s, e), e, p)
  {
  }

  /** With no output slot left, a request only moves without one. */
  lemma MovesWithoutOutput(cuda: bool, r: Runner, s: State, e: Event)
    requires Enabled(cuda, r, s, e) && UsesOutputPool(cuda, r) && s.outputs.free == [] && (e.Pre? || e.Infer? || e.Post?)
    requires e.p < |s.requests| && HeldOutput(s.requests[e.p]) == multiset{} && (e.Post? ==> s.requests[e.p].stage.output.Own?)
    ensures var s' := Step(cuda, r, s, e);
      && s'.outputs == s.outputs && |s'.requests| == |s.requests| && s'.requests == s.requests[e.p := s'.requests[e.p]]
      && HeldOutput(s'.requests[e.p]) == multiset{} && (e.Infer? ==> e.end == Threw(false))
  {
  }

  lemma NoOutputsStays(cuda: bool, r: Runner, s: State, e: Event)
    requires PoolsInv(cuda, r, s) && Enabled(cuda, r, s, e) && UsesOutputPool(cuda, r) && !OutputsLeft(s)
    ensures !OutputsLeft(Step(cuda, r, s, e))
    ensures e.Infer? ==> e.end == Threw(false)
  {
    if e.Submit? {
      GatherAppend(HeldOutput, s.requests, Request(e.x, PreQueued, Option.None));
    } else if !e.Return? {
      GatherHas(HeldOutput, s.requests, e.p);
      assert HeldOutput(s.requests[e.p]) == multiset{};
      MovesWithoutOutput(cuda, r, s, e);
      GatherSwap(HeldOutput, s.requests, e.p, Step(cuda, r, s, e).requests[e.p]);
    }
  }

  lemma StuckOnOutputs(cuda: bool, r: Runner, s: State, e: Event, p: nat)
    requires PoolsInv(cuda, r, s) && Enabled(cuda, r, s, e) && p < |s.requests| && s.requests[p].result.None?
    requires UsesOutputPool(cuda, r) && BeforeInfer(s.requests[p]) && !OutputsLeft(s)
    ensures StillStuck(cuda, r, Step(cuda, r, s, e), e, p)
  {
    NoOutputsStays(cuda, r, s, e);
  }

  lemma StuckStays(cuda: bool, r: Runner, s: State, e: Event, p: nat)
    requires PoolsInv(cuda, r, s) && p < |s.requests| && Waits(cuda, r, s, s.requests[p])
    ensures StillStuck(cuda, r, Step(cuda, r, s, e), e, p)
  {
    var q := s.requests[p];
    if Enabled(cuda, r, s, e) {
      if cuda && q.stage.PreQueued? && !InputsLeft(s) {
        StuckOnInputs(r, s, e, p);
      } else if UsesStaging(cuda, r) && q.stage.PreQueued? && s.staging == 0 {
        StuckOnStaging(cuda, r, s, e, p);
      } else if UsesFilters(cuda, r) && !q.stage.Ended? && s.filters == 0 {
        StuckOnFilters(cuda, r, s, e, p);
      } else {
        StuckOnOutputs(cuda, r, s, e, p);
      }
    }
  }

  lemma HopelessStays(cuda: bool, r: Runner, s: State, e: Event, p: nat)
    requires PoolsInv(cuda, r, s) && Hopeless(cuda, r, s, p)
    ensures Hopeless(cuda, r, Step(cuda, r, s, e), p)
  {
    if Waits(cuda, r, s, s.requests[p]) {
      StuckStays(cuda, r, s, e, p);
    } else {
      assert Exec(cuda, r, s, [e]) == Step(cuda, r, Exec(cuda, r, s, []), e);
      OutcomesAreFinal(cuda, r, s, [e], p);
    }
  }

  lemma {:induction false} HopelessForever(cuda: bool, r: Runner, s: State, es: seq<Event>, p: nat)
    requires PoolsInv(cuda, r, s) && Hopeless(cuda, r, s, p)
    ensures PoolsInv(cuda, r, Exec(cuda, r, s, es)) && Hopeless(cuda, r, Exec(cuda, r, s, es), p)
  {
    if es != [] {
      var t := Exec(cuda, r, s, es[..|es| - 1]);
      HopelessForever(cuda, r, s, es[..|es| - 1], p);
      HopelessStays(cuda, r, t, es[|es| - 1], p);
      StepKeepsPools(cuda, r, t, es[|es| - 1]);
    }
  }

  ghost predicate HasValue(s: State, p: nat) {
    p < |s.requests| && s.requests[p].result.Some? && s.requests[p].result.value.Value?
  }

  /** A stuck request is never given a value, however the run continues. */
  lemma StuckForGood(cuda: bool, r: Runner, init: State, es: seq<Event>, more: seq<Event>, p: nat,
                     stale: seq<Plane>, staleParams: seq<Params>)
    requires SlotWise(r) && r.batch > 0 && IsBuffer(r, stale, staleParams) && Initial(r, init)
    requires var s := Exec(cuda, r, init, es); p < |s.requests| && Stuck(cuda, r, s, s.requests[p])
    ensures !HasValue(Exec(cuda, r, init, es + more), p)
  {
    InvHolds(Anyones, cuda, r, init, es, stale, staleParams);
    PromisesSetOnce(cuda, r, init, es);
    assert PromiseInv(Exec(cuda, r, init, es).requests[p]);
    HopelessForever(cuda, r, Exec(cuda, r, init, es), more, p);
    ExecJoins(cuda, r, init, es, more);
    PromisesSetOnce(cuda, r, init, es + more);
    assert PromiseInv(Exec(cuda, r, init, es + more).requests[p]);
  }

  /** After any run, all requests can still be brought to their values, by stages that return, exactly when none is stuck:
      none waits for an input, staging or output slot of a pool that has none left, and none is still to be postprocessed
      when no filter slot is left. */
  lemma ServableIff(cuda: bool, r: Runner, init: State, es: seq<Event>, stale: seq<Plane>, staleParams: seq<Params>)
    requires SlotWise(r) && r.batch > 0 && IsBuffer(r, stale, staleParams) && Initial(r, init)
    ensures CanServeAll(cuda, r, Exec(cuda, r, init, es)) <==> NoneStuck(cuda, r, Exec(cuda, r, init, es))
  {
    var s := Exec(cuda, r, init, es);
    InvHolds(Anyones, cuda, r, init, es, stale, staleParams);
    if NoneStuck(cuda, r, s) {
      NoneStuckIff(cuda, r, s);
      var finds := (p: nat) => true;
      var more := ServeAll(cuda, r, s, finds, stale, staleParams);
      assert CanServe(cuda, r, s, finds);
    }
    if CanServeAll(cuda, r, s) {
      var finds :| CanServe(cuda, r, s, finds);
      PromisesSetOnce(cuda, r, init, es);
      ServableMeansNoneStuck(cuda, r, s, finds);
    }
  }

  lemma NoneStuckIff(cuda: bool, r: Runner, s: State)
    ensures NoneStuck(cuda, r, s) <==>
      NoneStarved(cuda, r, s) && (UsesFilters(cuda, r) && s.filters == 0 ==> Unserved(s.requests) == 0)
  {
    UnservedZeroIff(s.requests);
    assert NoneStuck(cuda, r, s) ==> forall p :: 0 <= p < |s.requests| ==> !Stuck(cuda, r, s, s.requests[p]);
  }

  lemma ServableMeansNoneStuck(cuda: bool, r: Runner, s: State, finds: nat -> bool)
    requires PoolsInv(cuda, r, s) && PromisesInv(s) && CanServe(cuda, r, s, finds)
    ensures NoneStuck(cuda, r, s)
  {
    var more :| AllServing(more, finds) && AllServed(Exec(cuda, r, s, more));
    if p :| 0 <= p < |s.requests| && Stuck(cuda, r, s, s.requests[p]) {
      assert PromiseInv(s.requests[p]);
      StuckServedNever(cuda, r, s, more, finds, p);
    }
  }

  /** Steps that serve never end a stuck request. */
  lemma {:induction false} StuckServedNever(cuda: bool, r: Runner, s: State, es: seq<Event>, finds: nat -> bool, p: nat)
    requires PoolsInv(cuda, r, s) && p < |s.requests| && Waits(cuda, r, s, s.requests[p]) && AllServing(es, finds)
    ensures var s' := Exec(cuda, r, s, es); PoolsInv(cuda, r, s') && p < |s'.requests| && Waits(cuda, r, s', s'.requests[p])
  {
    if es != [] {
      var t, e := Exec(cuda, r, s, es[..|es| - 1]), es[|es| - 1];
      StuckServedNever(cuda, r, s, es[..|es| - 1], finds, p);
      StepKeepsPools(cuda, r, t, e);
      StuckStays(cuda, r, t, e, p);
      assert Serving(e, finds);
    }
  }

  /** Whatever postprocess finds, all requests can still be served exactly when no request waits in vain for an input, staging
      or output slot and there is a filter slot for each request that is still to be served. */
  lemma ServableWhateverIff(cuda: bool, r: Runner, init: State, es: seq<Event>, stale: seq<Plane>, staleParams: seq<Params>)
    requires SlotWise(r) && r.batch > 0 && IsBuffer(r, stale, staleParams) && Initial(r, init)
    ensures var s := Exec(cuda, r, init, es);
      (forall finds :: CanServe(cuda, r, s, finds)) <==>
      NoneStarved(cuda, r, s) && (UsesFilters(cuda, r) ==> Unserved(s.requests) <= s.filters)
  {
    var s := Exec(cuda, r, init, es);
    InvHolds(Anyones, cuda, r, init, es, stale, staleParams);
    if NoneStarved(cuda, r, s) && (UsesFilters(cuda, r) ==> Unserved(s.requests) <= s.filters) {
      forall finds
        ensures CanServe(cuda, r, s, finds)
      {
        var more := ServeAll(cuda, r, s, finds, stale, staleParams);
      }
    }
    var nothing := (p: nat) => false;
    if CanServe(cuda, r, s, nothing) {
      PromisesSetOnce(cuda, r, init, es);
      ServableMeansNoneStuck(cuda, r, s, nothing);
      NoneStuckIff(cuda, r, s);
      var more :| AllServing(more, nothing) && AllServed(Exec(cuda, r, s, more));
      AnswersAlong(cuda, r, s, more, nothing);
      UnservedZeroIff(Exec(cuda, r, s, more).requests);
    }
  }

  lemma {:induction false} AnswersAlong(cuda: bool, r: Runner, s: State, es: seq<Event>, finds: nat -> bool)
    requires AllServing(es, finds)
    ensures Answers(cuda, r, s, Exec(cuda, r, s, es), finds)
  {
    if es != [] {
      var t, e := Exec(cuda, r, s, es[..|es| - 1]), es[|es| - 1];
      AnswersAlong(cuda, r, s, es[..|es| - 1], finds);
      assert Serving(e, finds);
      if Enabled(cuda, r, t, e) {
        ServingAnswers(cuda, r, t, e, finds);
        AnswersJoin(cuda, r, s, t, Step(cuda, r, t, e), finds);
      }
    }
  }

  /** In a CUDA build that returns each output slot once the condition comes down to counting: lost input slots, staging slots,
      lost output slots and filter slots. */
  lemma ServableByCount(r: Runner, init: State, es: seq<Event>, stale: seq<Plane>, staleParams: seq<Params>)
    requires SlotWise(r) && r.batch > 0 && IsBuffer(r, stale, staleParams) && Initial(r, init) && ReturnsOnce(r)
    ensures var s := Exec(true, r, init, es);
      CanServeAll(true, r, s) <==>
        && ((exists p :: 0 <= p < |s.requests| && s.requests[p].stage.PreQueued?) ==>
              |s.inputs.lost| < |s.inputs.memory| && (r.staging.Staged? ==> s.staging > 0))
        && (r.output.Pooled? && (exists p :: 0 <= p < |s.requests| && BeforeInfer(s.requests[p])) ==>
              |s.outputs.lost| < |s.outputs.memory|)
        && (r.filtered && !AllServed(s) ==> s.filters > 0)
  {
    var s := Exec(true, r, init, es);
    InvHolds(Anyones, true, r, init, es, stale, staleParams);
    ServableIff(true, r, init, es, stale, staleParams);
    OutputsLeftIff(true, r, s);
    if NoneStuck(true, r, s) {
      assert forall p :: 0 <= p < |s.requests| ==> !Stuck(true, r, s, s.requests[p]);
    }
  }

  /** In every run of a CUDA build each input slot is free, in one request's hands or lost; so is each output slot, or owed
      by a callback, if it is returned once. */
  lemma SlotsAccountedFor(r: Runner, init: State, es: seq<Event>, stale: seq<Plane>, staleParams: seq<Params>)
    requires SlotWise(r) && r.batch > 0 && IsBuffer(r, stale, staleParams) && Initial(r, init)
    ensures var s := Exec(true, r, init, es);
      && |s.inputs.free| + |Gather(HeldInput, s.requests)| + |s.inputs.lost| == |s.inputs.memory|
      && (forall k :: multiset(s.inputs.free)[k] + Gather(HeldInput, s.requests)[k] + s.inputs.lost[k] <= 1)
      && (ReturnsOnce(r) ==>
            && |s.outputs.free| + |s.outputs.owed| + |Gather(HeldOutput, s.requests)| + |s.outputs.lost| == |s.outputs.memory|
            && forall k :: multiset(s.outputs.free)[k] + s.outputs.owed[k] + Gather(HeldOutput, s.requests)[k] <= 1)
  {
    InvHolds(Anyones, true, r, init, es, stale, staleParams);
    var s := Exec(true, r, init, es);
    ConservedApart(s.inputs, Gather(HeldInput, s.requests), 0);
    forall k
      ensures multiset(s.inputs.free)[k] + Gather(HeldInput, s.requests)[k] + s.inputs.lost[k] <= 1
    {
      ConservedApart(s.inputs, Gather(HeldInput, s.requests), k);
    }
    if ReturnsOnce(r) {
      ConservedApart(s.outputs, Gather(HeldOutput, s.requests), 0);
      forall k
        ensures multiset(s.outputs.free)[k] + s.outputs.owed[k] + Gather(HeldOutput, s.requests)[k] <= 1
      {
        ConservedApart(s.outputs, Gather(HeldOutput, s.requests), k);
      }
    }
  }

  // ---------- runs that stick ----------

  /** n requests whose inference throws before their input slot is returned. */
  lemma {:induction false} ThrowingRun(r: Runner, init: State, x: Image, stale: seq<Plane>, wrapped: seq<Params>, n: nat)
    returns (es: seq<Event>)
    requires SlotWise(r) && r.batch > 0 && IsBuffer(r, stale, wrapped) && Initial(r, init) && n <= |init.inputs.memory|
    ensures var s := Exec(true, r, init, es);
      && |s.inputs.memory| == |init.inputs.memory| && |s.inputs.lost| == n && |s.requests| == n && s.staging > 0
      && forall p :: 0 <= p < n ==> s.requests[p].stage.Ended? && s.requests[p].result == Some(Exception)
  {
    es := [];
    if n > 0 {
      es := ThrowingRun(r, init, x, stale, wrapped, n - 1);
      InvHolds(Anyones, true, r, init, es, stale, wrapped);
      var s := Exec(true, r, init, es);
      GatherNothing(HeldInput, s.requests);
      ConservedApart(s.inputs, multiset{}, 0);
      TakenConserves(s.inputs, multiset{});
      var p, e1 := n - 1, Submit(x);
      var e2, e3 := Pre(p, Prepared, wrapped, Option.None), Infer(p, Threw(false));
      ThrownOut(r, s, x, wrapped);
      ExecOneMore(true, r, init, es, e1);
      ExecOneMore(true, r, init, es + [e1], e2);
      ExecOneMore(true, r, init, es + [e1] + [e2], e3);
      es := es + [e1] + [e2] + [e3];
    }
  }

  lemma ThrownOut(r: Runner, s: State, x: Image, wrapped: seq<Params>)
    requires r.batch > 0 && |wrapped| == r.batch && BufferReady(true, r, s) && s.staging > 0
    ensures var p := |s.requests|;
      var s' := Step(true, r, Step(true, r, Step(true, r, s, Submit(x)), Pre(p, Prepared, wrapped, Option.None)), Infer(p, Threw(false)));
      && s'.requests == s.requests + [Request(x, Ended(false), Some(Exception))] && s'.staging == s.staging
      && |s'.inputs.memory| == |s.inputs.memory| && s'.inputs.lost == s.inputs.lost + multiset{s.inputs.free[0]}
  {
    var p, i := |s.requests|, s.inputs.free[0];
    var s1 := Step(true, r, s, Submit(x));
    assert s1.requests[p] == Request(x, PreQueued, Option.None);
    var s2 := Step(true, r, s1, Pre(p, Prepared, wrapped, Option.None));
    assert s2.requests == s.requests + [Request(x, InferQueued(i, wrapped[0 := r.params(x)]), Option.None)];
  }

  /** The request submitted after a run is never given a value. */
  ghost predicate NextUnanswered(cuda: bool, r: Runner, init: State, es: seq<Event>, x: Image) {
    var p := |Exec(cuda, r, init, es).requests|;
    forall more :: var s := Exec(cuda, r, init, es + [Submit(x)] + more);
      p < |s.requests| && s.requests[p].x == x && !HasValue(s, p)
  }

  lemma StuckNext(cuda: bool, r: Runner, init: State, es: seq<Event>, x: Image, stale: seq<Plane>, wrapped: seq<Params>)
    requires SlotWise(r) && r.batch > 0 && IsBuffer(r, stale, wrapped) && Initial(r, init)
    requires var s := Exec(cuda, r, init, es);
      (cuda && !InputsLeft(s)) || (UsesStaging(cuda, r) && s.staging == 0) || (UsesFilters(cuda, r) && s.filters == 0)
    ensures NextUnanswered(cuda, r, init, es, x)
  {
    var p, s := |Exec(cuda, r, init, es).requests|, Exec(cuda, r, init, es + [Submit(x)]);
    ExecOneMore(cuda, r, init, es, Submit(x));
    forall more
      ensures var t := Exec(cuda, r, init, es + [Submit(x)] + more);
        p < |t.requests| && t.requests[p].x == x && !HasValue(t, p)
    {
      StuckForGood(cuda, r, init, es + [Submit(x)], more, p, stale, wrapped);
      ExecJoins(cuda, r, init, es + [Submit(x)], more);
      KeepsImage(cuda, r, s, more, p);
    }
  }

  /** In a CUDA build, for any number of input slots: when as many inferences have thrown, the next request is never given
      a value. */
  lemma ThrowsUseUpThePool(r: Runner, init: State, x: Image, stale: seq<Plane>, wrapped: seq<Params>) returns (es: seq<Event>)
    requires SlotWise(r) && r.batch > 0 && IsBuffer(r, stale, wrapped) && Initial(r, init)
    ensures |Exec(true, r, init, es).requests| == |init.inputs.memory| && NextUnanswered(true, r, init, es, x)
  {
    es := ThrowingRun(r, init, x, stale, wrapped, |init.inputs.memory|);
    StuckNext(true, r, init, es, x, stale, wrapped);
  }

  /** n requests whose preprocess throws while it has a staging slot. */
  lemma {:induction false} StagingRun(r: Runner, init: State, x: Image, wrapped: seq<Params>, n: nat) returns (es: seq<Event>)
    requires r.batch > 0 && |wrapped| == r.batch && Initial(r, init) && r.staging.Staged? && n <= init.staging
    ensures var s := Exec(true, r, init, es);
      && s.staging == init.staging - n && |s.requests| == n
      && forall p :: 0 <= p < n ==> s.requests[p].stage.Ended? && s.requests[p].result == Some(Exception)
  {
    es := [];
    if n > 0 {
      es := StagingRun(r, init, x, wrapped, n - 1);
      var e := Pre(n - 1, NoBuffer(true), wrapped, Option.None);
      StagingKept(r, Exec(true, r, init, es), x, wrapped);
      ExecOneMore(true, r, init, es, Submit(x));
      ExecOneMore(true, r, init, es + [Submit(x)], e);
      es := es + [Submit(x)] + [e];
    }
  }

  lemma StagingKept(r: Runner, s: State, x: Image, wrapped: seq<Params>)
    requires r.batch > 0 && |wrapped| == r.batch && r.staging.Staged? && s.staging > 0
    ensures var s' := Step(true, r, Step(true, r, s, Submit(x)), Pre(|s.requests|, NoBuffer(true), wrapped, Option.None));
      s'.staging == s.staging - 1 && s'.requests == s.requests + [Request(x, Ended(false), Some(Exception))]
  {
    assert Submitted(s, x).requests[|s.requests|] == Request(x, PreQueued, Option.None);
  }

  /** For any number of staging slots: when as many preprocesses have thrown while they had one, the next request is never given
      a value. */
  lemma ThrowsUseUpTheStaging(r: Runner, init: State, x: Image, stale: seq<Plane>, wrapped: seq<Params>) returns (es: seq<Event>)
    requires SlotWise(r) && r.batch > 0 && IsBuffer(r, stale, wrapped) && Initial(r, init) && r.staging.Staged?
    ensures |Exec(true, r, init, es).requests| == init.staging && NextUnanswered(true, r, init, es, x)
  {
    es := StagingRun(r, init, x, wrapped, init.staging);
    StuckNext(true, r, init, es, x, stale, wrapped);
  }

  /** n requests that are answered but in which nothing is found. */
  lemma {:induction false} EmptyRun(r: Runner, init: State, x: Image, stale: seq<Plane>, wrapped: seq<Params>, n: nat)
    returns (es: seq<Event>)
    requires SlotWise(r) && r.batch > 0 && IsBuffer(r, stale, wrapped) && Initial(r, init) && r.filtered && n <= init.filters
    ensures forall k :: 0 <= k < |es| ==> Throwless(es[k])
    ensures var s := Exec(true, r, init, es);
      |s.requests| == n && s.filters == init.filters - n && WellSupplied(r, s)
  {
    es := [];
    if n > 0 {
      es := EmptyRun(r, init, x, stale, wrapped, n - 1);
      es := EmptyOne(r, init, es, x, stale, wrapped);
    }
  }

  /** A state from which any number of requests can be answered, as far as input, staging and output slots go. */
  ghost predicate WellSupplied(r: Runner, s: State) {
    && s.staging > 0 && InputsLeft(s) && (UsesOutputPool(true, r) ==> OutputsLeft(s)) && AllServed(s)
    && forall p: nat :: p < |s.requests| ==> HasValue(s, p)
  }

  lemma OneMoreUnserved(r: Runner, s: State, x: Image, finds: nat -> bool)
    requires WellSupplied(r, s) && s.filters > 0
    ensures var s' := Submitted(s, x);
      NoneStarved(true, r, s') && Enough(true, r, s', finds) && Unserved(s'.requests) == 1
      && InputsLeft(s') && (UsesOutputPool(true, r) ==> OutputsLeft(s'))
  {
    var s' := Submitted(s, x);
    GatherAppend(HeldOutput, s.requests, Request(x, PreQueued, Option.None));
    UnservedZeroIff(s.requests);
    assert s'.requests[..|s.requests|] == s.requests;
  }

  lemma AllAnswered(r: Runner, s: State, x: Image, s': State, finds: nat -> bool)
    requires WellSupplied(r, s) && Unserved(Submitted(s, x).requests) == 1 && UsesFilters(true, r) && forall p :: !finds(p)
    requires Answers(true, r, Submitted(s, x), s', finds) && LeavesSlots(true, r, Submitted(s, x), s') && AllServed(s')
    requires InputsLeft(Submitted(s, x)) && (UsesOutputPool(true, r) ==> OutputsLeft(Submitted(s, x)))
    ensures WellSupplied(r, s') && |s'.requests| == |s.requests| + 1 && s'.filters == s.filters - 1
  {
    UnservedZeroIff(s'.requests);
    forall p: nat | p < |s'.requests|
      ensures HasValue(s', p)
    {
      if p < |s.requests| {
        assert HasValue(s, p) && Submitted(s, x).requests[p] == s.requests[p];
      }
    }
  }

  lemma EmptyOne(r: Runner, init: State, es: seq<Event>, x: Image, stale: seq<Plane>, wrapped: seq<Params>) returns (more: seq<Event>)
    requires SlotWise(r) && r.batch > 0 && IsBuffer(r, stale, wrapped) && Initial(r, init) && r.filtered
    requires forall k :: 0 <= k < |es| ==> Throwless(es[k])
    requires var s := Exec(true, r, init, es); s.filters > 0 && WellSupplied(r, s)
    ensures forall k :: 0 <= k < |more| ==> Throwless(more[k])
    ensures var s, s' := Exec(true, r, init, es), Exec(true, r, init, more);
      WellSupplied(r, s') && |s'.requests| == |s.requests| + 1 && s'.filters == s.filters - 1
  {
    var s, nothing := Exec(true, r, init, es), (p: nat) => false;
    var s1 := Submitted(s, x);
    ExecOneMore(true, r, init, es, Submit(x));
    InvHolds(Anyones, true, r, init, es + [Submit(x)], stale, wrapped);
    OneMoreUnserved(r, s, x, nothing);
    var rest := ServeAll(true, r, s1, nothing, stale, wrapped);
    ExecJoins(true, r, init, es + [Submit(x)], rest);
    AllAnswered(r, s, x, Exec(true, r, s1, rest), nothing);
    more := es + [Submit(x)] + rest;
    ServingIsThrowless(rest, nothing);
  }

  lemma ServingIsThrowless(es: seq<Event>, finds: nat -> bool)
    requires AllServing(es, finds)
    ensures forall k :: 0 <= k < |es| ==> Throwless(es[k])
  {
    forall k | 0 <= k < |es|
      ensures Throwless(es[k])
    {
      assert Serving(es[k], finds);
    }
  }

  /** With no filter slot left no request is ever given a value, now or later submitted. */
  lemma {:induction false} NoFilterNoValue(cuda: bool, r: Runner, s: State, es: seq<Event>, p: nat)
    requires UsesFilters(cuda, r) && s.filters == 0
    ensures var s' := Exec(cuda, r, s, es); s'.filters == 0 && (HasValue(s', p) ==> HasValue(s, p))
  {
    if es != [] {
      NoFilterNoValue(cuda, r, s, es[..|es| - 1], p);
      NoFilterOneMore(cuda, r, Exec(cuda, r, s, es[..|es| - 1]), es[|es| - 1], p);
    }
  }

  lemma NoFilterOneMore(cuda: bool, r: Runner, s: State, e: Event, p: nat)
    requires UsesFilters(cuda, r) && s.filters == 0
    ensures var s' := Step(cuda, r, s, e); s'.filters == 0 && (HasValue(s', p) ==> HasValue(s, p))
  {
  }

  /** For any number of filter slots: when as many images have been answered in which nothing was found, and no stage has
      thrown, the next request is never given a value. */
  lemma EmptyScenesUseUpTheFilters(r: Runner, init: State, x: Image, y: Image, stale: seq<Plane>, wrapped: seq<Params>)
    returns (es: seq<Event>)
    requires SlotWise(r) && r.batch > 0 && IsBuffer(r, stale, wrapped) && Initial(r, init) && r.filtered
    ensures forall k :: 0 <= k < |es| ==> Throwless(es[k])
    ensures var s := Exec(true, r, init, es); |s.requests| == init.filters && forall p: nat :: p < init.filters ==> HasValue(s, p)
    ensures NextUnanswered(true, r, init, es, y)
  {
    es := EmptyRun(r, init, x, stale, wrapped, init.filters);
    StuckNext(true, r, init, es, y, stale, wrapped);
  }

  lemma {:induction false} KeepsImage(cuda: bool, r: Runner, s: State, es: seq<Event>, p: nat)
    requires p < |s.requests|
    ensures var s' := Exec(cuda, r, s, es); p < |s'.requests| && s'.requests[p].x == s.requests[p].x
  {
    if es != [] {
      KeepsImage(cuda, r, s, es[..|es| - 1], p);
    }
  }

  /** A run in which postprocess throws: the promise is never set. */
  lemma PostThrowLeavesPromiseUnset(cuda: bool, r: Runner, init: State, x: Image, stale: seq<Plane>, wrapped: seq<Params>)
    returns (es: seq<Event>)
    requires SlotWise(r) && r.batch > 0 && IsBuffer(r, stale, wrapped) && Initial(r, init)
    ensures forall more :: var s := Exec(cuda, r, init, es + more); |s.requests| > 0 && s.requests[0] == Request(x, Ended(true), Option.None)
  {
    var e1, e2, e3, e4 := Submit(x), Pre(0, Prepared, wrapped, Option.None), Infer(0, Accepted), Post(0, PostThrew(false));
    es := [e1] + [e2] + [e3] + [e4];
    assert Exec(cuda, r, init, [e1]) == Step(cuda, r, init, e1) by { ExecOneMore(cuda, r, init, [], e1); assert [] + [e1] == [e1]; }
    ExecOneMore(cuda, r, init, [e1], e2);
    ExecOneMore(cuda, r, init, [e1] + [e2], e3);
    ExecOneMore(cuda, r, init, [e1] + [e2] + [e3], e4);
    assert Exec(cuda, r, init, [e1] + [e2]).requests[0].stage.InferQueued?;
    assert Exec(cuda, r, init, [e1] + [e2] + [e3]).requests[0].stage.PostQueued?;
    forall more
      ensures var s := Exec(cuda, r, init, es + more); |s.requests| > 0 && s.requests[0] == Request(x, Ended(true), Option.None)
    {
      ExecJoins(cuda, r, init, es, more);
      OutcomesAreFinal(cuda, r, Exec(cuda, r, init, es), more, 0);
    }
  }
}
