/** The batch scheduler over the device's pools: a batch's tensor is a slot of the input pool, and its output a slot of the
    output pool (include/backend/OrtSessionWrapper.h); the detector's tasks work in slots of two more pools
    (src/runner/detect/YoloDetector.cpp). BatchScheduler.dfy describes the same scheduler with buffers of each batch's own;
    BatchRefinement.dfy proves when that description is right. */
module BatchBuffers {
  import opened Runner
  import opened Arithmetic
  import opened BufferSlots
  import opened Gathering
  import Ideal = BatchScheduler

  /** The slots of one batch: that of its tensor, and from inference to postprocess that of its output. A batch whose
      preprocess or inference threw keeps its input slot for good. */
  datatype Loan = Loan(input: nat, returned: bool, output: Option<nat>)

  /** The batches of `core` keep no tensor data; the pools do. `staging` and `filters` count the slots of those pools that have
      not been kept for good; a task that takes one and returns it does so within its step. */
  datatype State = State(
    core: Ideal.State, loans: seq<Loan>, inputs: Slots<seq<Plane>>, outputs: Slots<seq<Feature>>, staging: nat, filters: nat)

  /** How a preprocess task ends; `kept`: the exception came while it had a staging slot. */
  datatype PrepEnd = PrepDone | PrepThrew(kept: bool)

  /** A pending preprocess whose copy runs beside another one's, and the image that the other reads instead of its own. */
  datatype Beside = Beside(batch: nat, slot: nat, seen: Image)

  /** `Work` is any task but the three named ones; `wrapped` are the params of a freshly wrapped tensor. */
  datatype Event =
    | Submit(x: Image)
    | Close
    | Wake(expired: bool)
    | Round(wrapped: seq<Params>)
    | Prep(batch: nat, slot: nat, prep: PrepEnd, over: Option<Beside>)
    | Work(batch: nat, task: Ideal.Task)
    | Infer(batch: nat, end: InferEnd)
    | Post(batch: nat, answer: PostEnd)
    | Return(returned: nat)

  function TaskOf(end: InferEnd): Ideal.Task {
    Ideal.Infer(end.Accepted? || end.Refused?, end.Accepted?)
  }

  predicate Tracked(s: State, b: nat) {
    && b < |s.core.batches| && b < |s.loans|
    && s.loans[b].input < |s.inputs.memory|
    && (s.loans[b].output.Some? ==> s.loans[b].output.value < |s.outputs.memory|)
  }

  /** The batch as its tasks see it, with what its slots hold now. */
  function Loaded(s: State, b: nat): Ideal.Batch
    requires Tracked(s, b)
  {
    var batch, loan := s.core.batches[b], s.loans[b];
    batch.(planes := if loan.returned then [] else s.inputs.memory[loan.input],
           phase := if batch.phase.PostQueued? && loan.output.Some? then Ideal.PostQueued(s.outputs.memory[loan.output.value])
                    else batch.phase)
  }

  function Kept(batch: Ideal.Batch, loan: Loan): Ideal.Batch {
    batch.(planes := [],
           phase := if batch.phase.PostQueued? && loan.output.Some? then Ideal.PostQueued([]) else batch.phase)
  }

  predicate TakesStaging(prep: PrepEnd) {
    prep.PrepThrew? ==> prep.kept
  }

  /** Two preprocess tasks can be under way at once: there are two staging slots, and the pools have a thread for each of the
      backend's buffers. */
  predicate TwoAtOnce(s: State) {
    s.staging >= 2 && |s.inputs.memory| >= 2
  }

  predicate PendingAt(s: State, b: nat, i: nat) {
    b < |s.core.batches| && i < |s.core.batches[b].pre| && i < |s.core.batches[b].inputs| && s.core.batches[b].pre[i].Pending?
  }

  predicate OverEnabled(r: Runner, s: State, b: nat, i: nat, over: Option<Beside>)
    requires PendingAt(s, b, i)
  {
    over.Some? ==>
      && TwoAtOnce(s) && PendingAt(s, over.value.batch, over.value.slot) && (over.value.batch != b || over.value.slot != i)
      && Tears(r, s.core.batches[b].inputs[i], s.core.batches[over.value.batch].inputs[over.value.slot], over.value.seen)
  }

  /** A preprocess task that reads `seen`. */
  function PrepStep(r: Runner, batch: Ideal.Batch, i: nat, prep: PrepEnd, seen: Image): Ideal.Batch
    requires Ideal.TaskEnabled(batch, Ideal.Preprocess(i, true))
  {
    if prep.PrepThrew? then batch.(pre := batch.pre[i := Ideal.Failed])
    else batch.(planes := batch.planes[i := r.pixels(seen)], params := batch.params[i := r.params(batch.inputs[i])],
                pre := batch.pre[i := Ideal.Done])
  }

  function Seen(x: Image, over: Option<Beside>): Image {
    if over.Some? then over.value.seen else x
  }

  predicate Enabled(r: Runner, s: State, e: Event) {
    match e
    case Submit(x) => Ideal.Enabled(r, s.core, Ideal.Submit(x))
    case Close => Ideal.Enabled(r, s.core, Ideal.Close)
    case Wake(expired) => Ideal.Enabled(r, s.core, Ideal.Wake(expired))
    case Round(wrapped) =>  // Acquire returns
      && s.core.worker.Batching? && |wrapped| == r.batch
      && Available(s.inputs) && |s.inputs.memory[s.inputs.free[0]]| == r.batch
    case Prep(b, i, prep, over) =>
      && Tracked(s, b) && Ideal.TaskEnabled(Loaded(s, b), Ideal.Preprocess(i, true))
      && (r.staging.Staged? && TakesStaging(prep) ==> s.staging > 0)
      && OverEnabled(r, s, b, i, over)
    case Work(b, t) => Tracked(s, b) && !t.Preprocess? && !t.Infer? && !t.Post? && Ideal.TaskEnabled(Loaded(s, b), t)
    case Infer(b, end) =>
      && Tracked(s, b) && !s.loans[b].returned && Ideal.TaskEnabled(Loaded(s, b), TaskOf(end))
      && (r.output.Pooled? && TakesOutput(end) ==> Available(s.outputs))
    case Post(b, answer) =>
      && Tracked(s, b) && Ideal.TaskEnabled(Loaded(s, b), Ideal.Post(answer.Answered?))
      && (r.filtered && TakesFilter(answer) ==> s.filters > 0)
    case Return(k) => k in s.outputs.owed
  }

  /** A step in which nothing throws and nothing is refused. */
  predicate Throwless(e: Event) {
    match e
    case Prep(_, _, prep, _) => prep.PrepDone?
    case Work(_, t) => t.SetValue? ==> t.ok
    case Infer(_, end) => end.Accepted?
    case Post(_, answer) => answer.Answered?
    case _ => true
  }

  ghost predicate AllThrowless(es: seq<Event>) {
    forall k :: 0 <= k < |es| ==> Throwless(es[k])
  }

  function WithBatch(s: State, b: nat, batch: Ideal.Batch, loan: Loan): State
    requires Tracked(s, b)
  {
    s.(core := s.core.(batches := s.core.batches[b := Kept(batch, loan)]), loans := s.loans[b := loan])
  }

  function Prepped(r: Runner, s: State, b: nat, i: nat, prep: PrepEnd, over: Option<Beside>): State
    requires Enabled(r, s, Prep(b, i, prep, over))
  {
    var batch := PrepStep(r, Loaded(s, b), i, prep, Seen(s.core.batches[b].inputs[i], over));
    WithBatch(s, b, batch, s.loans[b])
      .(inputs := if s.loans[b].returned then s.inputs else Filled(s.inputs, s.loans[b].input, batch.planes),
        staging := if r.staging.Staged? && prep == PrepThrew(true) then s.staging - 1 else s.staging)
  }

  function Worked(r: Runner, s: State, b: nat, t: Ideal.Task): State
    requires Enabled(r, s, Work(b, t))
  {
    WithBatch(s, b, Ideal.TaskStep(r, Loaded(s, b), t), s.loans[b])
  }

  function Inferred(r: Runner, s: State, b: nat, end: InferEnd): State
    requires Enabled(r, s, Infer(b, end))
  {
    var loaded, k := Loaded(s, b), s.loans[b].input;
    var output := if r.output.Pooled? && end.Accepted? then Some(s.outputs.free[0]) else Option.None;
    WithBatch(s, b, Ideal.TaskStep(r, loaded, TaskOf(end)), Loan(k, !end.Threw?, output))
      .(inputs := if end.Threw? then s.inputs else Returned(s.inputs, k),
        outputs := if r.output.Pooled? then OutputAfter(s.outputs, end, r.infer(loaded.planes)) else s.outputs)
  }

  function Posted(r: Runner, s: State, b: nat, answer: PostEnd): State
    requires Enabled(r, s, Post(b, answer))
  {
    var loan := s.loans[b];
    WithBatch(s, b, Ideal.TaskStep(r, Loaded(s, b), Ideal.Post(answer.Answered?)), loan.(output := Option.None))
      .(outputs := if loan.output.Some? && r.output.Pooled? then OutputRead(s.outputs, loan.output.value, r.output.copies)
                   else s.outputs,
        filters := if r.filtered then FiltersAfter(s.filters, answer) else s.filters)
  }

  /** A pass of the do-while. A buffer that no batch was made of is not returned. */
  function Batched(r: Runner, s: State, wrapped: seq<Params>): State
    requires Enabled(r, s, Round(wrapped))
  {
    var k := s.inputs.free[0];
    var core, n := Ideal.Batched(r, s.core, s.inputs.memory[k], wrapped), |s.core.batches|;
    if |core.batches| != n + 1 then s.(core := core, inputs := Lost(Taken(s.inputs), k))
    else
      var loan := Loan(k, false, Option.None);
      State(core.(batches := core.batches[n := Kept(core.batches[n], loan)]), s.loans + [loan], Taken(s.inputs), s.outputs, s.staging, s.filters)
  }

  function Step(r: Runner, s: State, e: Event): State {
    if !Enabled(r, s, e) then s else
    match e
    case Submit(x) => s.(core := Ideal.Step(r, s.core, Ideal.Submit(x)))
    case Close => s.(core := Ideal.Step(r, s.core, Ideal.Close))
    case Wake(expired) => s.(core := Ideal.Step(r, s.core, Ideal.Wake(expired)))
    case Round(wrapped) => Batched(r, s, wrapped)
    case Prep(b, i, prep, over) => Prepped(r, s, b, i, prep, over)
    case Work(b, t) => Worked(r, s, b, t)
    case Infer(b, end) => Inferred(r, s, b, end)
    case Post(b, answer) => Posted(r, s, b, answer)
    case Return(k) => s.(outputs := Paid(s.outputs, k))
  }

  function Exec(r: Runner, s: State, es: seq<Event>): State {
    if es == [] then s else Step(r, Exec(r, s, es[..|es| - 1]), es[|es| - 1])
  }

  lemma ExecOneMore(r: Runner, s: State, es: seq<Event>, e: Event)
    ensures Exec(r, s, es + [e]) == Step(r, Exec(r, s, es), e)
  {
    assert (es + [e])[..|es|] == es;
  }

  lemma ExecJoins(r: Runner, s: State, es: seq<Event>, more: seq<Event>)
    ensures Exec(r, s, es + more) == Exec(r, Exec(r, s, es), more)
  {
    ExecFrom(r, s, es, Exec(r, s, es), more);
  }

  lemma {:induction false} ExecFrom(r: Runner, s: State, es: seq<Event>, t: State, more: seq<Event>)
    requires Exec(r, s, es) == t
    ensures Exec(r, s, es + more) == Exec(r, t, more)
    decreases |more|
  {
    if more == [] {
      assert es + more == es;
    } else {
      var e, rest := more[0], more[1..];
      assert more == [e] + rest && es + more == (es + [e]) + rest;
      ExecOneMore(r, s, es, e);
      ExecFrom(r, s, es + [e], Step(r, t, e), rest);
      assert Exec(r, t, []) == t && [] + [e] == [e];
      ExecOneMore(r, t, [], e);
      ExecFrom(r, t, [e], Step(r, t, e), rest);
    }
  }

  ghost predicate Initial(r: Runner, s: State) {
    && s.core == Ideal.START && s.loans == [] && |s.inputs.memory| > 0 && |s.outputs.memory| > 0
    && (forall k :: 0 <= k < |s.inputs.memory| ==> |s.inputs.memory[k]| == r.batch)
    && s.inputs == AllFree(s.inputs.memory) && s.outputs == AllFree(s.outputs.memory)
    && s.staging > 0 && s.filters > 0
  }

  lemma PoolsOfAnySize(r: Runner, memory: seq<seq<Plane>>, outputs: seq<seq<Feature>>, staging: nat, filters: nat)
    requires |memory| > 0 && |outputs| > 0 && staging > 0 && filters > 0 && forall k :: 0 <= k < |memory| ==> |memory[k]| == r.batch
    ensures Initial(r, State(Ideal.START, [], AllFree(memory), AllFree(outputs), staging, filters))
  {
  }

  // ---------- the slots ----------

  function HeldInput(loan: Loan): multiset<nat> {
    if loan.returned then multiset{} else multiset{loan.input}
  }

  function HeldOutput(loan: Loan): multiset<nat> {
    if loan.output.Some? then multiset{loan.output.value} else multiset{}
  }

  /** How a batch's stage and its slots go together. */
  ghost predicate LoanInv(r: Runner, batch: Ideal.Batch, loan: Loan) {
    && |batch.pre| == |batch.inputs| == |batch.results| <= r.batch && |batch.params| == r.batch && 0 < |batch.inputs|
    && (batch.phase.Awaiting? ==>
          && !loan.returned && batch.phase.next <= |batch.pre|
          && forall i :: 0 <= i < batch.phase.next ==> batch.pre[i].Done?)
    && (loan.output.Some? ==> batch.phase.PostQueued? && r.output.Pooled?)
    && (batch.phase.PostQueued? && r.output.Pooled? ==> loan.output.Some?)
  }

  ghost predicate LoansInv(r: Runner, s: State) {
    && |s.loans| == |s.core.batches|
    && forall b :: 0 <= b < |s.loans| ==> Tracked(s, b) && LoanInv(r, s.core.batches[b], s.loans[b])
  }

  ghost predicate InputsInv(r: Runner, s: State) {
    && (forall k :: 0 <= k < |s.inputs.memory| ==> |s.inputs.memory[k]| == r.batch)
    && s.inputs.owed == multiset{} == s.inputs.lost
    && Conserved(s.inputs, Gather(HeldInput, s.loans))
  }

  ghost predicate OutputsOk(r: Runner, s: State) {
    OutputsInv(r.output.Pooled?, ReturnsOnce(r), s.outputs, Gather(HeldOutput, s.loans))
  }

  /** The queue's part of BatchScheduler.Inv: it is what makes every pass of the loop dispatch. */
  ghost predicate CoreInv(r: Runner, core: Ideal.State) {
    && |core.inputs| == |core.promises|
    && (core.worker.Batching? ==> core.inputs != [])
    && (core.worker.Exited? ==> core.closed)
  }

  ghost predicate PoolsInv(r: Runner, s: State) {
    r.batch > 0 && CoreInv(r, s.core) && LoansInv(r, s) && InputsInv(r, s) && OutputsOk(r, s)
  }

  lemma LoansMove(r: Runner, s: State, s': State, b: nat)
    requires LoansInv(r, s) && b < |s.loans| == |s'.loans| == |s'.core.batches|
    requires s'.core.batches == s.core.batches[b := s'.core.batches[b]] && s'.loans == s.loans[b := s'.loans[b]]
    requires |s'.inputs.memory| == |s.inputs.memory| && |s'.outputs.memory| == |s.outputs.memory|
    requires Tracked(s', b) && LoanInv(r, s'.core.batches[b], s'.loans[b])
    ensures LoansInv(r, s')
  {
    forall c | 0 <= c < |s'.loans|
      ensures Tracked(s', c) && LoanInv(r, s'.core.batches[c], s'.loans[c])
    {
      assert Tracked(s, c) && LoanInv(r, s.core.batches[c], s.loans[c]);
    }
  }

  lemma TaskKeepsLoan(r: Runner, batch: Ideal.Batch, loan: Loan, t: Ideal.Task)
    requires LoanInv(r, batch, loan) && Ideal.TaskEnabled(batch, t) && !t.Preprocess? && !t.Infer? && !t.Post?
    ensures LoanInv(r, Kept(Ideal.TaskStep(r, batch, t), loan), loan)
    ensures Ideal.TaskStep(r, batch, t).planes == batch.planes
  {
  }

  lemma PrepKeepsLoan(r: Runner, batch: Ideal.Batch, loan: Loan, i: nat, prep: PrepEnd, seen: Image)
    requires LoanInv(r, batch, loan) && Ideal.TaskEnabled(batch, Ideal.Preprocess(i, true))
    ensures LoanInv(r, Kept(PrepStep(r, batch, i, prep, seen), loan), loan)
    ensures |PrepStep(r, batch, i, prep, seen).planes| == |batch.planes|
  {
  }

  lemma PrepKeepsPools(r: Runner, s: State, b: nat, i: nat, prep: PrepEnd, over: Option<Beside>)
    requires PoolsInv(r, s) && Enabled(r, s, Prep(b, i, prep, over))
    ensures PoolsInv(r, Prepped(r, s, b, i, prep, over))
  {
    assert LoanInv(r, s.core.batches[b], s.loans[b]);
    PrepKeepsLoan(r, Loaded(s, b), s.loans[b], i, prep, Seen(s.core.batches[b].inputs[i], over));
    var s' := Prepped(r, s, b, i, prep, over);
    assert s'.loans == s.loans;
    LoansMove(r, s, s', b);
  }

  lemma WorkKeepsPools(r: Runner, s: State, b: nat, t: Ideal.Task)
    requires PoolsInv(r, s) && Enabled(r, s, Work(b, t))
    ensures PoolsInv(r, Worked(r, s, b, t))
  {
    assert LoanInv(r, s.core.batches[b], s.loans[b]);
    TaskKeepsLoan(r, Loaded(s, b), s.loans[b], t);
    var s' := Worked(r, s, b, t);
    assert s'.loans == s.loans;
    LoansMove(r, s, s', b);
  }

  lemma InferKeepsLoan(r: Runner, batch: Ideal.Batch, loan: Loan, end: InferEnd, k: nat)
    requires LoanInv(r, batch, loan) && Ideal.TaskEnabled(batch, TaskOf(end))
    ensures var loan' := Loan(loan.input, !end.Threw?, if r.output.Pooled? && end.Accepted? then Some(k) else Option.None);
      LoanInv(r, Kept(Ideal.TaskStep(r, batch, TaskOf(end)), loan'), loan')
  {
  }

  lemma InferKeepsInputs(r: Runner, s: State, b: nat, end: InferEnd)
    requires PoolsInv(r, s) && Enabled(r, s, Infer(b, end))
    ensures InputsInv(r, Inferred(r, s, b, end))
  {
    var s' := Inferred(r, s, b, end);
    GatherSwap(HeldInput, s.loans, b, s'.loans[b]);
    if !end.Threw? {
      ReturnedConserves(s.inputs, Gather(HeldInput, s'.loans), s.loans[b].input);
    }
  }

  lemma InferKeepsOutputs(r: Runner, s: State, b: nat, end: InferEnd)
    requires PoolsInv(r, s) && Enabled(r, s, Infer(b, end))
    ensures OutputsOk(r, Inferred(r, s, b, end))
  {
    var s', held := Inferred(r, s, b, end), Gather(HeldOutput, s.loans);
    assert LoanInv(r, s.core.batches[b], s.loans[b]);
    GatherSwap(HeldOutput, s.loans, b, s'.loans[b]);
    assert held + multiset{} == held;
    if r.output.Pooled? {
      OutputAfterKeepsInv(ReturnsOnce(r), s.outputs, held, end, r.infer(Loaded(s, b).planes));
    }
  }

  lemma InferKeepsLoans(r: Runner, s: State, b: nat, end: InferEnd)
    requires LoansInv(r, s) && Enabled(r, s, Infer(b, end))
    ensures LoansInv(r, Inferred(r, s, b, end))
  {
    var s' := Inferred(r, s, b, end);
    InferKeepsLoan(r, Loaded(s, b), s.loans[b], end, if r.output.Pooled? && end.Accepted? then s.outputs.free[0] else 0);
    LoansMove(r, s, s', b);
  }

  lemma InferKeepsPools(r: Runner, s: State, b: nat, end: InferEnd)
    requires PoolsInv(r, s) && Enabled(r, s, Infer(b, end))
    ensures PoolsInv(r, Inferred(r, s, b, end))
  {
    InferKeepsLoans(r, s, b, end);
    InferKeepsInputs(r, s, b, end);
    InferKeepsOutputs(r, s, b, end);
  }

  lemma PostKeepsOutputs(r: Runner, s: State, b: nat, answer: PostEnd)
    requires PoolsInv(r, s) && Enabled(r, s, Post(b, answer))
    ensures OutputsOk(r, Posted(r, s, b, answer))
  {
    var s' := Posted(r, s, b, answer);
    GatherSwap(HeldOutput, s.loans, b, s'.loans[b]);
    if s.loans[b].output.Some? {
      assert LoanInv(r, s.core.batches[b], s.loans[b]);
      OutputReadKeepsInv(ReturnsOnce(r), s.outputs, Gather(HeldOutput, s'.loans), s.loans[b].output.value, r.output.copies);
    }
  }

  lemma PostKeepsPools(r: Runner, s: State, b: nat, answer: PostEnd)
    requires PoolsInv(r, s) && Enabled(r, s, Post(b, answer))
    ensures PoolsInv(r, Posted(r, s, b, answer))
  {
    var s' := Posted(r, s, b, answer);
    assert LoanInv(r, s.core.batches[b], s.loans[b]);
    PostKeepsOutputs(r, s, b, answer);
    GatherSwap(HeldInput, s.loans, b, s'.loans[b]);
    LoansMove(r, s, s', b);
  }

  /** A pass of the loop dispatches: it makes a batch of the oldest requests. */
  lemma RoundDispatches(r: Runner, s: State, wrapped: seq<Params>)
    requires PoolsInv(r, s) && Enabled(r, s, Round(wrapped))
    ensures var s', n, k, size := Batched(r, s, wrapped), |s.core.batches|, s.inputs.free[0], Min(r.batch, |s.core.inputs|);
      && size > 0 && CoreInv(r, s'.core)
      && s'.core.batches == s.core.batches + [Ideal.NewBatch(s.core.inputs[..size], s.core.promises[..size], [], wrapped)]
      && s'.loans == s.loans + [Loan(k, false, Option.None)] && s'.inputs == Taken(s.inputs) && s'.outputs == s.outputs
      && s'.staging == s.staging && s'.filters == s.filters
      && s'.core.inputs == s.core.inputs[size..] && s'.core.closed == s.core.closed
      && (s'.core.worker.Batching? <==> |s'.core.inputs| >= r.batch)
  {
  }

  lemma RoundKeepsPools(r: Runner, s: State, wrapped: seq<Params>)
    requires PoolsInv(r, s) && Enabled(r, s, Round(wrapped))
    ensures PoolsInv(r, Batched(r, s, wrapped))
  {
    var s', n := Batched(r, s, wrapped), |s.loans|;
    RoundDispatches(r, s, wrapped);
    var loan := Loan(s.inputs.free[0], false, Option.None);
    TakenConserves(s.inputs, Gather(HeldInput, s.loans));
    GatherAppend(HeldInput, s.loans, loan);
    GatherAppend(HeldOutput, s.loans, loan);
    assert Gather(HeldOutput, s.loans) + multiset{} == Gather(HeldOutput, s.loans);
    RoundKeepsLoans(r, s, s', s'.core.batches[n], loan);
  }

  lemma RoundKeepsLoans(r: Runner, s: State, s': State, batch: Ideal.Batch, loan: Loan)
    requires LoansInv(r, s) && LoanInv(r, batch, loan) && loan.input < |s'.inputs.memory| && loan.output.None?
    requires s'.core.batches == s.core.batches + [batch] && s'.loans == s.loans + [loan]
    requires |s'.inputs.memory| == |s.inputs.memory| && |s'.outputs.memory| == |s.outputs.memory|
    ensures LoansInv(r, s')
  {
    forall c | 0 <= c < |s'.loans|
      ensures Tracked(s', c) && LoanInv(r, s'.core.batches[c], s'.loans[c])
    {
      assert c < |s.loans| ==> Tracked(s, c) && LoanInv(r, s.core.batches[c], s.loans[c]);
    }
  }

  lemma StepKeepsPools(r: Runner, s: State, e: Event)
    requires PoolsInv(r, s)
    ensures PoolsInv(r, Step(r, s, e))
  {
    if Enabled(r, s, e) {
      match e
      case Round(wrapped) => RoundKeepsPools(r, s, wrapped);
      case Prep(b, i, prep, over) => PrepKeepsPools(r, s, b, i, prep, over);
      case Work(b, t) => WorkKeepsPools(r, s, b, t);
      case Infer(b, end) => InferKeepsPools(r, s, b, end);
      case Post(b, answer) => PostKeepsPools(r, s, b, answer);
      case Return(k) => OwedReturns(r, s, k);
      case _ => CallersKeepPools(r, s, Step(r, s, e));
    }
  }

  lemma OwedReturns(r: Runner, s: State, k: nat)
    requires PoolsInv(r, s) && k in s.outputs.owed
    ensures Step(r, s, Return(k)) == s.(outputs := Paid(s.outputs, k)) && PoolsInv(r, Step(r, s, Return(k)))
  {
    PaidKeepsInv(r.output.Pooled?, ReturnsOnce(r), s.outputs, Gather(HeldOutput, s.loans), k);
    var s' := s.(outputs := Paid(s.outputs, k));
    forall c | 0 <= c < |s'.loans|
      ensures Tracked(s', c)
    {
      assert Tracked(s, c);
    }
  }

  /** Steps that leave batches and pools alone. */
  lemma CallersKeepPools(r: Runner, s: State, s': State)
    requires PoolsInv(r, s) && s' == s.(core := s'.core) && s'.core.batches == s.core.batches && CoreInv(r, s'.core)
    ensures PoolsInv(r, s')
  {
    forall c | 0 <= c < |s'.loans|
      ensures Tracked(s', c) && LoanInv(r, s'.core.batches[c], s'.loans[c])
    {
      assert Tracked(s, c);
    }
  }

  lemma InitialPools(r: Runner, init: State)
    requires Initial(r, init) && r.batch > 0
    ensures PoolsInv(r, init)
  {
    assert Conserved(init.outputs, multiset{});
    ConservedInRange(init.outputs, multiset{});
  }

  lemma {:induction false} PoolsInvHolds(r: Runner, init: State, es: seq<Event>)
    requires Initial(r, init) && r.batch > 0
    ensures PoolsInv(r, Exec(r, init, es))
  {
    if es == [] {
      InitialPools(r, init);
    } else {
      PoolsInvHolds(r, init, es[..|es| - 1]);
      StepKeepsPools(r, Exec(r, init, es[..|es| - 1]), es[|es| - 1]);
    }
  }
}
