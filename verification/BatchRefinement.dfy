/** The batch scheduler over the device's pools: when images fit their staging slots and output slots are returned once, the pools
    are as good as buffers of the batches' own. */
module BatchRefinement {
  import opened Runner
  import opened BufferSlots
  import opened Gathering
  import opened BatchBuffers
  import Ideal = BatchScheduler
  import BatchHistory

  ghost predicate RelatedBatch(s: State, b: nat, ideal: Ideal.Batch) {
    && Tracked(s, b)
    && var loaded := Loaded(s, b);
    && loaded == ideal.(planes := loaded.planes)
    && (!s.loans[b].returned ==> loaded.planes == ideal.planes)
  }

  /** The same but for where the data is. */
  ghost predicate Related(s: State, ideal: Ideal.State) {
    && |ideal.batches| == |s.core.batches| && s.core == ideal.(batches := s.core.batches)
    && forall b :: 0 <= b < |ideal.batches| ==> RelatedBatch(s, b, ideal.batches[b])
  }

  /** The step of the other description; a release callback is none. */
  function Translated(s: State, e: Event): Ideal.Event
    requires !e.Return? && (e.Round? ==> Available(s.inputs))
  {
    match e
    case Submit(x) => Ideal.Submit(x)
    case Close => Ideal.Close
    case Wake(expired) => Ideal.Wake(expired)
    case Round(wrapped) => Ideal.Round(Some((s.inputs.memory[s.inputs.free[0]], wrapped)))
    case Prep(b, i, prep, _) => Ideal.Work(b, Ideal.Preprocess(i, prep.PrepDone?))
    case Work(b, t) => Ideal.Work(b, t)
    case Infer(b, end) => Ideal.Work(b, TaskOf(end))
    case Post(b, answer) => Ideal.Work(b, Ideal.Post(answer.Answered?))
  }

  /** Only preprocess and inference touch the planes. */
  lemma TaskIgnoresPlanes(r: Runner, batch: Ideal.Batch, planes: seq<Plane>, t: Ideal.Task)
    requires !t.Preprocess? && !t.Infer?
    ensures Ideal.TaskEnabled(batch.(planes := planes), t) == Ideal.TaskEnabled(batch, t)
    ensures Ideal.TaskEnabled(batch, t) ==>
      Ideal.TaskStep(r, batch.(planes := planes), t) == Ideal.TaskStep(r, batch, t).(planes := planes)
  {
  }

  /** A step of batch b leaves every other batch related. */
  lemma OthersStayRelated(s: State, s': State, ideal: Ideal.State, ideal': Ideal.State, b: nat)
    requires Related(s, ideal) && b < |ideal.batches| == |s.loans| == |s'.core.batches| == |ideal'.batches|
    requires s'.core == s.core.(batches := s'.core.batches) && s'.core.batches == s.core.batches[b := s'.core.batches[b]]
    requires |s'.loans| == |s.loans| && s'.loans == s.loans[b := s'.loans[b]]
    requires ideal' == ideal.(batches := ideal.batches[b := ideal'.batches[b]])
    requires |s'.inputs.memory| == |s.inputs.memory| && |s'.outputs.memory| == |s.outputs.memory|
    requires forall c :: 0 <= c < |s.loans| && c != b && !s.loans[c].returned && s.loans[c].input < |s.inputs.memory| ==>
      s'.inputs.memory[s.loans[c].input] == s.inputs.memory[s.loans[c].input]
    requires forall c :: 0 <= c < |s.loans| && c != b && s.loans[c].output.Some? && s.loans[c].output.value < |s.outputs.memory| ==>
      s'.outputs.memory[s.loans[c].output.value] == s.outputs.memory[s.loans[c].output.value]
    requires RelatedBatch(s', b, ideal'.batches[b])
    ensures Related(s', ideal')
  {
    forall c | 0 <= c < |ideal'.batches|
      ensures RelatedBatch(s', c, ideal'.batches[c])
    {
      if c != b {
        assert RelatedBatch(s, c, ideal.batches[c]);
      }
    }
  }

  /** A preprocess task writes no other batch's input. */
  lemma OthersKeepInputs(r: Runner, s: State, b: nat, i: nat, prep: PrepEnd, over: Option<Beside>)
    requires PoolsInv(r, s) && Enabled(r, s, Prep(b, i, prep, over))
    ensures var s' := Prepped(r, s, b, i, prep, over);
      forall c :: 0 <= c < |s.loans| && c != b && !s.loans[c].returned && s.loans[c].input < |s.inputs.memory| ==>
        s'.inputs.memory[s.loans[c].input] == s.inputs.memory[s.loans[c].input]
  {
    forall c | 0 <= c < |s.loans| && c != b && !s.loans[c].returned && !s.loans[b].returned
      ensures s.loans[c].input != s.loans[b].input
    {
      HeldApart(s.inputs, HeldInput, s.loans, b, c, s.loans[b].input);
    }
  }

  /** Where no preprocess can read another image than its own. */
  ghost predicate NeverTorn(r: Runner, s: State) {
    AllFit(r) || !TwoAtOnce(s)
  }

  /** A task's step in the other description. */
  lemma IdealWork(r: Runner, ideal: Ideal.State, b: nat, t: Ideal.Task)
    requires b < |ideal.batches| && Ideal.TaskEnabled(ideal.batches[b], t)
    ensures Ideal.Step(r, ideal, Ideal.Work(b, t)) == ideal.(batches := ideal.batches[b := Ideal.TaskStep(r, ideal.batches[b], t)])
  {
  }

  lemma PrepRefines(r: Runner, s: State, ideal: Ideal.State, b: nat, i: nat, prep: PrepEnd, over: Option<Beside>)
    requires PoolsInv(r, s) && Related(s, ideal) && NeverTorn(r, s) && Enabled(r, s, Prep(b, i, prep, over))
    ensures Related(Prepped(r, s, b, i, prep, over), Ideal.Step(r, ideal, Ideal.Work(b, Ideal.Preprocess(i, prep.PrepDone?))))
  {
    assert RelatedBatch(s, b, ideal.batches[b]) && LoanInv(r, s.core.batches[b], s.loans[b]);
    assert over.None?;
    PreppedBatch(r, s, b, i, prep, over);
    PrepIsPreprocess(r, ideal.batches[b], i, prep);
    OthersKeepInputs(r, s, b, i, prep, over);
    IdealWork(r, ideal, b, Ideal.Preprocess(i, prep.PrepDone?));
    OthersStayRelated(s, Prepped(r, s, b, i, prep, over), ideal,
                      ideal.(batches := ideal.batches[b := Ideal.TaskStep(r, ideal.batches[b], Ideal.Preprocess(i, prep.PrepDone?))]), b);
  }

  lemma PrepIsPreprocess(r: Runner, batch: Ideal.Batch, i: nat, prep: PrepEnd)
    requires Ideal.TaskEnabled(batch, Ideal.Preprocess(i, true))
    ensures PrepStep(r, batch, i, prep, batch.inputs[i]) == Ideal.TaskStep(r, batch, Ideal.Preprocess(i, prep.PrepDone?))
  {
  }

  /** Stored and loaded again, a batch is what its preprocess task left. */
  lemma PreppedBatch(r: Runner, s: State, b: nat, i: nat, prep: PrepEnd, over: Option<Beside>)
    requires Enabled(r, s, Prep(b, i, prep, over)) && LoanInv(r, s.core.batches[b], s.loans[b])
    ensures Tracked(Prepped(r, s, b, i, prep, over), b)
    ensures Loaded(Prepped(r, s, b, i, prep, over), b)
         == PrepStep(r, Loaded(s, b), i, prep, Seen(s.core.batches[b].inputs[i], over))
  {
  }

  lemma WorkRefines(r: Runner, s: State, ideal: Ideal.State, b: nat, t: Ideal.Task)
    requires PoolsInv(r, s) && Related(s, ideal) && Enabled(r, s, Work(b, t))
    ensures Related(Worked(r, s, b, t), Ideal.Step(r, ideal, Ideal.Work(b, t)))
  {
    assert RelatedBatch(s, b, ideal.batches[b]) && LoanInv(r, s.core.batches[b], s.loans[b]);
    var loaded := Loaded(s, b);
    TaskIgnoresPlanes(r, ideal.batches[b], loaded.planes, t);
    WorkedBatch(r, s, b, t);
    OthersStayRelated(s, Worked(r, s, b, t), ideal, Ideal.Step(r, ideal, Ideal.Work(b, t)), b);
  }

  /** The same for the other tasks. */
  lemma WorkedBatch(r: Runner, s: State, b: nat, t: Ideal.Task)
    requires Enabled(r, s, Work(b, t)) && b < |s.core.batches| && LoanInv(r, s.core.batches[b], s.loans[b])
    ensures Tracked(Worked(r, s, b, t), b) && Loaded(Worked(r, s, b, t), b) == Ideal.TaskStep(r, Loaded(s, b), t)
  {
  }

  lemma InferredBatch(r: Runner, s: State, b: nat, end: InferEnd, ideal: Ideal.Batch)
    requires Enabled(r, s, Infer(b, end)) && LoanInv(r, s.core.batches[b], s.loans[b]) && Loaded(s, b) == ideal
    ensures RelatedBatch(Inferred(r, s, b, end), b, Ideal.TaskStep(r, ideal, TaskOf(end)))
  {
  }

  /** A step that writes no output slot another batch still needs. */
  ghost predicate Spares(r: Runner, s: State, e: Event) {
    ReturnsOnce(r) || (e.Infer? ==> forall c :: 0 <= c < |s.loans| ==> s.loans[c].output.None?)
  }

  /** Inference writes no other batch's output. */
  lemma OthersKeepOutputs(r: Runner, s: State, b: nat, end: InferEnd)
    requires PoolsInv(r, s) && Spares(r, s, Infer(b, end)) && Enabled(r, s, Infer(b, end))
    ensures var s' := Inferred(r, s, b, end);
      forall c :: 0 <= c < |s.loans| && c != b && s.loans[c].output.Some? && s.loans[c].output.value < |s.outputs.memory| ==>
        s'.outputs.memory[s.loans[c].output.value] == s.outputs.memory[s.loans[c].output.value]
  {
    if ReturnsOnce(r) && r.output.Pooled? && TakesOutput(end) {
      TakenConserves(s.outputs, Gather(HeldOutput, s.loans));
      forall c | 0 <= c < |s.loans| && s.loans[c].output.Some?
        ensures s.loans[c].output.value != s.outputs.free[0]
      {
        GatherHas(HeldOutput, s.loans, c);
        assert s.loans[c].output.value in Gather(HeldOutput, s.loans);
      }
    }
  }

  lemma InferRefines(r: Runner, s: State, ideal: Ideal.State, b: nat, end: InferEnd)
    requires PoolsInv(r, s) && Spares(r, s, Infer(b, end)) && Related(s, ideal) && Enabled(r, s, Infer(b, end))
    ensures Related(Inferred(r, s, b, end), Ideal.Step(r, ideal, Ideal.Work(b, TaskOf(end))))
  {
    assert RelatedBatch(s, b, ideal.batches[b]) && LoanInv(r, s.core.batches[b], s.loans[b]);
    InferredBatch(r, s, b, end, ideal.batches[b]);
    OthersKeepOutputs(r, s, b, end);
    IdealWork(r, ideal, b, TaskOf(end));
    OthersStayRelated(s, Inferred(r, s, b, end), ideal,
                      ideal.(batches := ideal.batches[b := Ideal.TaskStep(r, ideal.batches[b], TaskOf(end))]), b);
  }

  lemma PostRefines(r: Runner, s: State, ideal: Ideal.State, b: nat, answer: PostEnd)
    requires PoolsInv(r, s) && Related(s, ideal) && Enabled(r, s, Post(b, answer))
    ensures Related(Posted(r, s, b, answer), Ideal.Step(r, ideal, Ideal.Work(b, Ideal.Post(answer.Answered?))))
  {
    assert RelatedBatch(s, b, ideal.batches[b]);
    TaskIgnoresPlanes(r, ideal.batches[b], Loaded(s, b).planes, Ideal.Post(answer.Answered?));
    OthersStayRelated(s, Posted(r, s, b, answer), ideal, Ideal.Step(r, ideal, Ideal.Work(b, Ideal.Post(answer.Answered?))), b);
  }

  lemma RoundRefines(r: Runner, s: State, ideal: Ideal.State, wrapped: seq<Params>)
    requires PoolsInv(r, s) && Related(s, ideal) && Enabled(r, s, Round(wrapped))
    ensures Related(Batched(r, s, wrapped), Ideal.Step(r, ideal, Ideal.Round(Some((s.inputs.memory[s.inputs.free[0]], wrapped)))))
  {
    var s', ideal' := Batched(r, s, wrapped), Ideal.Step(r, ideal, Ideal.Round(Some((s.inputs.memory[s.inputs.free[0]], wrapped))));
    RoundDispatches(r, s, wrapped);
    forall c | 0 <= c < |ideal'.batches|
      ensures RelatedBatch(s', c, ideal'.batches[c])
    {
      assert c < |ideal.batches| ==> RelatedBatch(s, c, ideal.batches[c]);
    }
  }

  lemma CallersStayRelated(s: State, s': State, ideal: Ideal.State, ideal': Ideal.State)
    requires Related(s, ideal) && s' == s.(core := s'.core, outputs := s'.outputs) && s'.outputs.memory == s.outputs.memory
    requires s'.core.batches == s.core.batches && s'.core == ideal'.(batches := s.core.batches) && ideal'.batches == ideal.batches
    ensures Related(s', ideal')
  {
    forall c | 0 <= c < |ideal'.batches|
      ensures RelatedBatch(s', c, ideal'.batches[c])
    {
      assert RelatedBatch(s, c, ideal.batches[c]);
    }
  }

  lemma StepRefines(r: Runner, s: State, ideal: Ideal.State, e: Event)
    requires PoolsInv(r, s) && Spares(r, s, e) && NeverTorn(r, s) && Related(s, ideal) && Enabled(r, s, e) && !e.Return?
    ensures Related(Step(r, s, e), Ideal.Step(r, ideal, Translated(s, e)))
  {
    match e
    case Round(wrapped) => RoundRefines(r, s, ideal, wrapped);
    case Prep(b, i, prep, over) => PrepRefines(r, s, ideal, b, i, prep, over);
    case Work(b, t) => WorkRefines(r, s, ideal, b, t);
    case Infer(b, end) => InferRefines(r, s, ideal, b, end);
    case Post(b, answer) => PostRefines(r, s, ideal, b, answer);
    case Submit(x) => CallersStayRelated(s, Step(r, s, e), ideal, Ideal.Step(r, ideal, Ideal.Submit(x)));
    case Close => CallersStayRelated(s, Step(r, s, e), ideal, Ideal.Step(r, ideal, Ideal.Close));
    case Wake(expired) => CallersStayRelated(s, Step(r, s, e), ideal, Ideal.Step(r, ideal, Ideal.Wake(expired)));
  }

  /** No inference writes a slot of the output pool while another batch's output waits for its postprocess, or slots are
      returned once. */
  ghost predicate Spaced(r: Runner, init: State, es: seq<Event>) {
    forall k :: 0 <= k < |es| ==> Spares(r, Exec(r, init, es[..k]), es[k])
  }

  lemma SpacedPrefix(r: Runner, init: State, es: seq<Event>, n: nat)
    requires n <= |es| && Spaced(r, init, es)
    ensures Spaced(r, init, es[..n])
  {
    forall k | 0 <= k < n
      ensures Spares(r, Exec(r, init, es[..n][..k]), es[..n][k])
    {
      assert es[..n][..k] == es[..k] && Spares(r, Exec(r, init, es[..k]), es[k]);
    }
  }

  lemma TornStays(r: Runner, s: State, e: Event)
    requires NeverTorn(r, s)
    ensures NeverTorn(r, Step(r, s, e))
  {
  }

  /** If images fit their staging slots and each output slot is returned once, every run over the pools does what some run with
      buffers of the batches' own does: same queue, same batches, same promises, same outcomes. Instead of returning once it is
      enough that no inference runs while an output waits for its postprocess. */
  lemma {:induction false} RunsRefine(r: Runner, init: State, es: seq<Event>) returns (ideal: seq<Ideal.Event>)
    requires SlotWise(r) && r.batch > 0 && Initial(r, init) && Spaced(r, init, es) && NeverTorn(r, init)
    ensures Related(Exec(r, init, es), Ideal.Exec(r, Ideal.START, ideal)) && Ideal.BuffersValid(ideal)
    ensures NeverTorn(r, Exec(r, init, es))
  {
    ideal := [];
    if es != [] {
      var before, e := es[..|es| - 1], es[|es| - 1];
      SpacedPrefix(r, init, es, |es| - 1);
      ideal := RunsRefine(r, init, before);
      PoolsInvHolds(r, init, before);
      assert Spares(r, Exec(r, init, before), e);
      ideal := RefineOne(r, Exec(r, init, before), ideal, e);
    }
  }

  lemma RefineOne(r: Runner, s: State, before: seq<Ideal.Event>, e: Event) returns (ideal: seq<Ideal.Event>)
    requires PoolsInv(r, s) && NeverTorn(r, s) && Spares(r, s, e)
    requires Related(s, Ideal.Exec(r, Ideal.START, before)) && Ideal.BuffersValid(before)
    ensures Related(Step(r, s, e), Ideal.Exec(r, Ideal.START, ideal)) && Ideal.BuffersValid(ideal) && NeverTorn(r, Step(r, s, e))
  {
    ideal := before;
    TornStays(r, s, e);
    if Enabled(r, s, e) {
      if e.Return? {
        CallersStayRelated(s, Step(r, s, e), Ideal.Exec(r, Ideal.START, ideal), Ideal.Exec(r, Ideal.START, ideal));
      } else {
        StepRefines(r, s, Ideal.Exec(r, Ideal.START, ideal), e);
        Ideal.ExecOneMore(r, ideal, Translated(s, e));
        ideal := ideal + [Translated(s, e)];
      }
    }
  }

  ghost predicate RightAnswer(r: Runner, s: State, b: nat, i: nat, stale: seq<Plane>, staleParams: seq<Params>)
    requires SlotWise(r) && r.batch > 0 && IsBuffer(r, stale, staleParams)
  {
    b < |s.core.batches| && i < |s.core.batches[b].results| ==>
      var batch := s.core.batches[b];
      && i < |batch.promises| && batch.promises[i] < |s.core.submitted|
      && (batch.results[i].Some? && batch.results[i].value.Value? ==>
            batch.results[i].value.answer == Alone(r, stale, staleParams, s.core.submitted[batch.promises[i]]))
  }

  /** The main result: under the same conditions, a request answered with a value gets the value the sequential scheduler
      computes for it alone. */
  lemma PooledBatchingRefinesSequential(r: Runner, init: State, es: seq<Event>, b: nat, i: nat,
                                        stale: seq<Plane>, staleParams: seq<Params>)
    requires SlotWise(r) && r.batch > 0 && Initial(r, init) && IsBuffer(r, stale, staleParams)
    requires Spaced(r, init, es) && NeverTorn(r, init)
    ensures RightAnswer(r, Exec(r, init, es), b, i, stale, staleParams)
  {
    var fs := RunsRefine(r, init, es);
    var s, ideal := Exec(r, init, es), Ideal.Exec(r, Ideal.START, fs);
    if b < |s.core.batches| && i < |s.core.batches[b].results| {
      assert RelatedBatch(s, b, ideal.batches[b]);
      Ideal.InvHolds(r, fs);
      assert Ideal.BatchInv(r, ideal.batches[b]);
      BatchHistory.RequestOfSlot(r, fs, b, i);
      if s.core.batches[b].results[i].Some? && s.core.batches[b].results[i].value.Value? {
        BatchHistory.BatchingRefinesSequential(r, fs, b, i, stale, staleParams);
      }
    }
  }
}
