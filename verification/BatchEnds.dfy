/** When a dispatched batch can be brought to its end, with every promise set, by tasks that return. */
module BatchEnds {
  import opened Runner
  import opened Arithmetic
  import opened BufferSlots
  import opened Gathering
  import opened BatchBuffers
  import opened BatchRuns
  import opened BatchBlocking
  import Ideal = BatchScheduler

  ghost predicate CanEnd(r: Runner, s: State, b: nat) {
    exists es :: AllThrowless(es) && HasEnded(Exec(r, s, es), b)
  }

  ghost predicate HasEnded(s: State, b: nat) {
    b < |s.core.batches| && Ideal.Ended(s.core.batches[b])
  }

  /** Waiting for its futures from number n on, a batch meets one that is still to run before one that has thrown. */
  predicate NeedsStaging(pre: seq<Ideal.Pre>, n: nat)
    decreases |pre| - n
  {
    n < |pre| && !pre[n].Failed? && (pre[n].Pending? || NeedsStaging(pre, n + 1))
  }

  /** The slots that a batch still needs are there. */
  ghost predicate EndsLeft(r: Runner, s: State, b: nat)
    requires b < |s.core.batches|
  {
    var batch := s.core.batches[b];
    match batch.phase
    case Awaiting(n) =>
      && (r.staging.Staged? && NeedsStaging(batch.pre, n) ==> s.staging > 0)
      && (NoneFailed(batch) ==> OutputsLeft(r, s, false) && (r.filtered ==> s.filters > 0))
    case PostQueued(_) => r.filtered ==> s.filters > 0
    case _ => true
  }

  // ---------- sizes ----------

  /** The answers of a batch reach all its promises. */
  ghost predicate PhaseFits(r: Runner, s: State, b: nat) {
    Tracked(s, b) &&
    match Loaded(s, b).phase
    case PostQueued(f) => |f| == r.batch
    case Delivering(a, n) => |s.core.batches[b].results| <= |a| && n <= |s.core.batches[b].results|
    case Failing(n) => n <= |s.core.batches[b].results|
    case _ => true
  }

  ghost predicate SizesInv(r: Runner, s: State) {
    PoolsInv(r, s) && forall b :: 0 <= b < |s.core.batches| ==> PhaseFits(r, s, b)
  }

  /** A step on batch b keeps the others' sizes if what it writes to an output slot is of the right size. */
  lemma OthersFit(r: Runner, s: State, s': State, b: nat)
    requires SizesInv(r, s) && PoolsInv(r, s') && |s'.core.batches| == |s.core.batches| && b < |s.core.batches|
    requires s'.core.batches == s.core.batches[b := s'.core.batches[b]] && s'.loans == s.loans[b := s'.loans[b]]
    requires |s'.outputs.memory| == |s.outputs.memory|
    requires forall k :: 0 <= k < |s.outputs.memory| ==>
      s'.outputs.memory[k] == s.outputs.memory[k] || |s'.outputs.memory[k]| == r.batch
    requires PhaseFits(r, s', b)
    ensures SizesInv(r, s')
  {
    forall c | 0 <= c < |s'.core.batches|
      ensures PhaseFits(r, s', c)
    {
      if c != b {
        assert PhaseFits(r, s, c) && Tracked(s', c);
      }
    }
  }

  lemma InferredFits(r: Runner, s: State, b: nat, end: InferEnd)
    requires SlotWise(r) && Enabled(r, s, Infer(b, end)) && |Loaded(s, b).planes| == r.batch
    requires LoanInv(r, s.core.batches[b], s.loans[b])
    ensures PhaseFits(r, Inferred(r, s, b, end), b)
    ensures forall k :: 0 <= k < |s.outputs.memory| ==>
      var memory := Inferred(r, s, b, end).outputs.memory;
      |memory| == |s.outputs.memory| && (memory[k] == s.outputs.memory[k] || |memory[k]| == r.batch)
  {
    assert |r.infer(Loaded(s, b).planes)| == r.batch;
    assert Tracked(Inferred(r, s, b, end), b);
  }

  lemma InferFits(r: Runner, s: State, b: nat, end: InferEnd)
    requires SlotWise(r) && SizesInv(r, s) && Enabled(r, s, Infer(b, end))
    ensures SizesInv(r, Inferred(r, s, b, end))
  {
    InferKeepsPools(r, s, b, end);
    assert LoanInv(r, s.core.batches[b], s.loans[b]);
    InferredFits(r, s, b, end);
    OthersFit(r, s, Inferred(r, s, b, end), b);
  }

  lemma PostFits(r: Runner, s: State, b: nat, answer: PostEnd)
    requires SlotWise(r) && SizesInv(r, s) && Enabled(r, s, Post(b, answer))
    ensures SizesInv(r, Posted(r, s, b, answer))
  {
    PostKeepsPools(r, s, b, answer);
    var s' := Posted(r, s, b, answer);
    assert Tracked(s', b) && LoanInv(r, s.core.batches[b], s.loans[b]) && PhaseFits(r, s, b);
    assert |r.post(Loaded(s, b).phase.features, s.core.batches[b].params)| == r.batch;
    OthersFit(r, s, s', b);
  }

  lemma PrepFits(r: Runner, s: State, b: nat, i: nat, prep: PrepEnd, over: Option<Beside>)
    requires SizesInv(r, s) && Enabled(r, s, Prep(b, i, prep, over))
    ensures SizesInv(r, Prepped(r, s, b, i, prep, over))
  {
    PrepKeepsPools(r, s, b, i, prep, over);
    var s' := Prepped(r, s, b, i, prep, over);
    assert PhaseFits(r, s, b) && Tracked(s', b);
    OthersFit(r, s, s', b);
  }

  lemma WorkFits(r: Runner, s: State, b: nat, t: Ideal.Task)
    requires SizesInv(r, s) && Enabled(r, s, Work(b, t))
    ensures SizesInv(r, Worked(r, s, b, t))
  {
    WorkKeepsPools(r, s, b, t);
    assert PhaseFits(r, s, b);
    WorkedFits(r, s, b, t);
    OthersFit(r, s, Worked(r, s, b, t), b);
  }

  lemma WorkedFits(r: Runner, s: State, b: nat, t: Ideal.Task)
    requires Enabled(r, s, Work(b, t)) && PhaseFits(r, s, b)
    ensures PhaseFits(r, Worked(r, s, b, t), b)
  {
    assert Tracked(Worked(r, s, b, t), b);
  }

  lemma RoundFits(r: Runner, s: State, wrapped: seq<Params>)
    requires SizesInv(r, s) && Enabled(r, s, Round(wrapped))
    ensures SizesInv(r, Batched(r, s, wrapped))
  {
    RoundKeepsPools(r, s, wrapped);
    RoundDispatches(r, s, wrapped);
    var s' := Batched(r, s, wrapped);
    forall c | 0 <= c < |s'.core.batches|
      ensures PhaseFits(r, s', c)
    {
      assert Tracked(s', c);
      assert c < |s.core.batches| ==> PhaseFits(r, s, c);
    }
  }

  lemma StepFits(r: Runner, s: State, e: Event)
    requires SlotWise(r) && SizesInv(r, s)
    ensures SizesInv(r, Step(r, s, e))
  {
    if Enabled(r, s, e) {
      match e
      case Round(wrapped) => RoundFits(r, s, wrapped);
      case Prep(b, i, prep, over) => PrepFits(r, s, b, i, prep, over);
      case Work(b, t) => WorkFits(r, s, b, t);
      case Infer(b, end) => InferFits(r, s, b, end);
      case Post(b, answer) => PostFits(r, s, b, answer);
      case _ => CallersFit(r, s, e);
    }
  }

  lemma CallersFit(r: Runner, s: State, e: Event)
    requires SizesInv(r, s) && Enabled(r, s, e) && (e.Submit? || e.Close? || e.Wake? || e.Return?)
    ensures SizesInv(r, Step(r, s, e))
  {
    StepKeepsPools(r, s, e);
    CallersLeave(r, s, e);
    SameFit(r, s, Step(r, s, e));
  }

  lemma CallersLeave(r: Runner, s: State, e: Event)
    requires Enabled(r, s, e) && (e.Submit? || e.Close? || e.Wake? || e.Return?)
    ensures var s' := Step(r, s, e);
      && s'.core.batches == s.core.batches && s'.loans == s.loans && s'.inputs == s.inputs
      && s'.outputs.memory == s.outputs.memory
  {
  }

  lemma SameFit(r: Runner, s: State, s': State)
    requires SizesInv(r, s) && PoolsInv(r, s') && s'.core.batches == s.core.batches && s'.loans == s.loans
    requires s'.inputs == s.inputs && s'.outputs.memory == s.outputs.memory
    ensures SizesInv(r, s')
  {
    forall c | 0 <= c < |s'.core.batches|
      ensures PhaseFits(r, s', c)
    {
      assert PhaseFits(r, s, c);
    }
  }

  lemma {:induction false} SizesInvHolds(r: Runner, init: State, es: seq<Event>)
    requires SlotWise(r) && r.batch > 0 && Initial(r, init)
    ensures SizesInv(r, Exec(r, init, es))
  {
    if es == [] {
      InitialPools(r, init);
    } else {
      SizesInvHolds(r, init, es[..|es| - 1]);
      StepFits(r, Exec(r, init, es[..|es| - 1]), es[|es| - 1]);
    }
  }

  // ---------- the batch comes to its end ----------

  /** Delivers, or fails, what is left of a batch. */
  lemma {:induction false} Delivered(r: Runner, s: State, b: nat) returns (es: seq<Event>)
    requires SlotWise(r) && SizesInv(r, s) && b < |s.core.batches|
    requires s.core.batches[b].phase.Delivering? || s.core.batches[b].phase.Failing? || s.core.batches[b].phase.Lost?
    ensures AllThrowless(es) && HasEnded(Exec(r, s, es), b)
    decreases Ideal.Measure(s.core.batches[b])
  {
    es := [];
    if !HasEnded(s, b) {
      assert PhaseFits(r, s, b);
      var e := Work(b, if s.core.batches[b].phase.Failing? then Ideal.SetException else Ideal.SetValue(true));
      DeliveredOne(r, s, b, e.task);
      StepFits(r, s, e);
      var rest := Delivered(r, Step(r, s, e), b);
      es := StepThenRest(r, s, e, rest);
    }
  }

  lemma DeliveredOne(r: Runner, s: State, b: nat, t: Ideal.Task)
    requires PhaseFits(r, s, b) && !HasEnded(s, b) && Ideal.TaskEnabled(Loaded(s, b), t) && (t == Ideal.SetException || t == Ideal.SetValue(true))
    ensures var s' := Step(r, s, Work(b, t));
      && |s'.core.batches| == |s.core.batches|
      && (s'.core.batches[b].phase.Delivering? || s'.core.batches[b].phase.Failing?)
      && Ideal.Measure(s'.core.batches[b]) < Ideal.Measure(s.core.batches[b])
  {
  }

  lemma PostDelivers(r: Runner, s: State, b: nat)
    requires SizesInv(r, s) && b < |s.core.batches| && s.core.batches[b].phase.PostQueued? && (r.filtered ==> s.filters > 0)
    ensures Enabled(r, s, Post(b, Answered(true)))
    ensures var s' := Posted(r, s, b, Answered(true));
      |s'.core.batches| == |s.core.batches| && s'.core.batches[b].phase.Delivering?
  {
    assert PhaseFits(r, s, b);
  }

  lemma PostedEnds(r: Runner, s: State, b: nat) returns (es: seq<Event>)
    requires SlotWise(r) && SizesInv(r, s) && b < |s.core.batches| && s.core.batches[b].phase.PostQueued? && (r.filtered ==> s.filters > 0)
    ensures AllThrowless(es) && HasEnded(Exec(r, s, es), b)
  {
    var e := Post(b, Answered(true));
    PostDelivers(r, s, b);
    PostFits(r, s, b, Answered(true));
    var rest := Delivered(r, Step(r, s, e), b);
    es := StepThenRest(r, s, e, rest);
  }

  /** The next task of a batch one of whose preprocesses has thrown. */
  lemma FailureNears(r: Runner, s: State, b: nat) returns (e: Event)
    requires SizesInv(r, s) && b < |s.core.batches|
    requires s.core.batches[b].phase.Awaiting? && !NoneFailed(s.core.batches[b]) && EndsLeft(r, s, b)
    ensures Throwless(e)
    ensures var s' := Step(r, s, e);
      && |s'.core.batches| == |s.core.batches|
      && (s'.core.batches[b].phase.Failing?
          || (s'.core.batches[b].phase.Awaiting? && !NoneFailed(s'.core.batches[b]) && EndsLeft(r, s', b)
              && Left(s'.core.batches[b]) < Left(s.core.batches[b])))
  {
    var n := s.core.batches[b].phase.next;
    assert PhaseFits(r, s, b) && LoanInv(r, s.core.batches[b], s.loans[b]);
    var loaded := Loaded(s, b);
    if loaded.pre[n].Pending? {
      e := Prep(b, n, PrepDone, Option.None);
      PrepAdvances(r, loaded, loaded.inputs[n]);
      PrepKept(r, s, b, n);
      FailureStays(r, loaded, n);
    } else {
      e := Work(b, Ideal.AwaitPre);
      AwaitKept(r, s, b);
    }
  }

  /** It meets that one. */
  lemma {:induction false} FailureMet(r: Runner, s: State, b: nat) returns (es: seq<Event>)
    requires SlotWise(r) && SizesInv(r, s) && b < |s.core.batches|
    requires s.core.batches[b].phase.Awaiting? && !NoneFailed(s.core.batches[b]) && EndsLeft(r, s, b)
    ensures AllThrowless(es) && HasEnded(Exec(r, s, es), b)
    decreases Left(s.core.batches[b])
  {
    var e := FailureNears(r, s, b);
    StepFits(r, s, e);
    var rest: seq<Event>;
    if Step(r, s, e).core.batches[b].phase.Failing? {
      rest := Delivered(r, Step(r, s, e), b);
    } else {
      rest := FailureMet(r, Step(r, s, e), b);
    }
    es := StepThenRest(r, s, e, rest);
  }

  lemma FailureStays(r: Runner, batch: Ideal.Batch, n: nat)
    requires batch.phase.Awaiting? && !NoneFailed(batch) && Ideal.TaskEnabled(batch, Ideal.Preprocess(n, true))
    ensures !NoneFailed(PrepStep(r, batch, n, PrepDone, batch.inputs[n]))
  {
    var i :| 0 <= i < |batch.pre| && batch.pre[i].Failed?;
    assert PrepStep(r, batch, n, PrepDone, batch.inputs[n]).pre[i].Failed?;
  }

  /** In a batch without a failure the first n futures of which are done, a staging slot is needed exactly for those pending. */
  lemma {:induction false} PendingNeedsStaging(batch: Ideal.Batch, n: nat)
    requires NoneFailed(batch) && n <= |batch.pre| && forall i :: 0 <= i < n ==> batch.pre[i].Done?
    ensures NeedsStaging(batch.pre, n) <==> SomePending(batch)
    decreases |batch.pre| - n
  {
    if n < |batch.pre| && batch.pre[n].Done? {
      PendingNeedsStaging(batch, n + 1);
    }
  }

  lemma EndComes(r: Runner, s: State, b: nat) returns (es: seq<Event>)
    requires SlotWise(r) && SizesInv(r, s) && b < |s.core.batches| && EndsLeft(r, s, b)
    ensures AllThrowless(es) && HasEnded(Exec(r, s, es), b)
  {
    var batch := s.core.batches[b];
    assert PhaseFits(r, s, b) && LoanInv(r, batch, s.loans[b]);
    match batch.phase
    case Awaiting(n) =>
      if NoneFailed(batch) {
        PendingNeedsStaging(batch, n);
        es := InferenceComes(r, s, b, false);
        SizesAlong(r, s, es);
        var rest := PostedEnds(r, Exec(r, s, es), b);
        es := Joined(r, s, es, rest);
      } else {
        es := FailureMet(r, s, b);
      }
    case PostQueued(_) => es := PostedEnds(r, s, b);
    case _ => es := Delivered(r, s, b);
  }

  lemma {:induction false} SizesAlong(r: Runner, s: State, es: seq<Event>)
    requires SlotWise(r) && SizesInv(r, s)
    ensures SizesInv(r, Exec(r, s, es))
  {
    if es != [] {
      SizesAlong(r, s, es[..|es| - 1]);
      StepFits(r, Exec(r, s, es[..|es| - 1]), es[|es| - 1]);
    }
  }

  // ---------- or it does not ----------

  lemma NoOutputsStay(r: Runner, s: State, e: Event)
    requires PoolsInv(r, s) && Enabled(r, s, e) && Throwless(e) && !OutputsLeft(r, s, false)
    ensures !OutputsLeft(r, Step(r, s, e), false) && !e.Infer?
  {
    match e
    case Prep(b, i, prep, over) => NoBufferPrep(r, s, b, i, prep, over);
    case Work(b, t) => NoBufferWork(r, s, b, t);
    case Post(b, answer) => PostMeansOutputsLeft(r, s, b, answer, false);
    case Round(wrapped) =>
      RoundDispatches(r, s, wrapped);
      GatherAppend(HeldOutput, s.loans, Loan(s.inputs.free[0], false, Option.None));
      assert Gather(HeldOutput, s.loans) + multiset{} == Gather(HeldOutput, s.loans);
    case Infer(b, end) =>
    case Return(k) =>
    case Submit(_) =>
    case Close =>
    case Wake(_) =>
  }

  /** What a throwless step does to batch b, if it is not of that batch. */
  lemma OtherBatch(r: Runner, s: State, e: Event, b: nat)
    requires PoolsInv(r, s) && Enabled(r, s, e) && Throwless(e) && b < |s.core.batches|
    requires !((e.Prep? || e.Work? || e.Infer? || e.Post?) && e.batch == b)
    ensures var s' := Step(r, s, e);
      b < |s'.core.batches| && s'.core.batches[b] == s.core.batches[b] && s'.staging == s.staging && s'.filters <= s.filters
  {
    if e.Round? {
      RoundDispatches(r, s, e.wrapped);
    }
  }

  ghost predicate Missing(r: Runner, s: State, b: nat) {
    b < |s.core.batches| && !EndsLeft(r, s, b)
  }

  lemma MissingStaysOther(r: Runner, s: State, e: Event, b: nat)
    requires PoolsInv(r, s) && Enabled(r, s, e) && Throwless(e) && Missing(r, s, b)
    requires !((e.Prep? || e.Work? || e.Infer? || e.Post?) && e.batch == b)
    ensures Missing(r, Step(r, s, e), b)
  {
    OtherBatch(r, s, e, b);
    if !OutputsLeft(r, s, false) {
      NoOutputsStay(r, s, e);
    }
  }

  lemma MissingStaysPrep(r: Runner, s: State, b: nat, i: nat, over: Option<Beside>)
    requires PoolsInv(r, s) && Enabled(r, s, Prep(b, i, PrepDone, over)) && Missing(r, s, b)
    ensures Missing(r, Prepped(r, s, b, i, PrepDone, over), b)
  {
    var batch, s' := s.core.batches[b], Prepped(r, s, b, i, PrepDone, over);
    NoBufferPrep(r, s, b, i, PrepDone, over);
    assert LoanInv(r, batch, s.loans[b]);
    if NoneFailed(batch) {
      assert NoneFailed(s'.core.batches[b]);
    }
    if r.staging.Staged? && batch.phase.Awaiting? {
      DoneNeedsNoMore(batch.pre, batch.phase.next, i);
    }
  }

  lemma {:induction false} DoneNeedsNoMore(pre: seq<Ideal.Pre>, n: nat, i: nat)
    requires i < |pre| && pre[i].Pending?
    ensures NeedsStaging(pre[i := Ideal.Done], n) ==> NeedsStaging(pre, n)
    decreases |pre| - n
  {
    if n < |pre| {
      DoneNeedsNoMore(pre, n + 1, i);
    }
  }

  lemma MissingStaysWork(r: Runner, s: State, b: nat, t: Ideal.Task)
    requires PoolsInv(r, s) && Enabled(r, s, Work(b, t)) && Throwless(Work(b, t)) && Missing(r, s, b)
    ensures Missing(r, Worked(r, s, b, t), b)
  {
    var batch := s.core.batches[b];
    NoBufferWork(r, s, b, t);
    assert LoanInv(r, batch, s.loans[b]);
    assert t == Ideal.AwaitPre;
    AwaitKept(r, s, b);
  }

  lemma MissingStaysInfer(r: Runner, s: State, b: nat)
    requires PoolsInv(r, s) && Enabled(r, s, Infer(b, Accepted)) && Missing(r, s, b)
    ensures Missing(r, Inferred(r, s, b, Accepted), b)
  {
    assert LoanInv(r, s.core.batches[b], s.loans[b]);
    InferLeaves(r, s, b);
  }

  lemma MissingStays(r: Runner, s: State, e: Event, b: nat)
    requires PoolsInv(r, s) && Throwless(e) && Missing(r, s, b)
    ensures Missing(r, Step(r, s, e), b)
  {
    if Enabled(r, s, e) {
      if (e.Prep? || e.Work? || e.Infer? || e.Post?) && e.batch == b {
        match e
        case Prep(_, i, _, over) => MissingStaysPrep(r, s, b, i, over);
        case Work(_, t) => MissingStaysWork(r, s, b, t);
        case Infer(_, _) => MissingStaysInfer(r, s, b);
        case Post(_, _) =>
      } else {
        MissingStaysOther(r, s, e, b);
      }
    }
  }

  lemma {:induction false} MissingEver(r: Runner, s: State, es: seq<Event>, b: nat)
    requires PoolsInv(r, s) && AllThrowless(es) && Missing(r, s, b)
    ensures PoolsInv(r, Exec(r, s, es)) && Missing(r, Exec(r, s, es), b)
  {
    if es != [] {
      MissingEver(r, s, es[..|es| - 1], b);
      StepKeepsPools(r, Exec(r, s, es[..|es| - 1]), es[|es| - 1]);
      MissingStays(r, Exec(r, s, es[..|es| - 1]), es[|es| - 1], b);
    }
  }

  lemma MissingNotEnded(r: Runner, s: State, b: nat)
    requires Missing(r, s, b)
    ensures !HasEnded(s, b)
  {
  }

  lemma MissingCannotEnd(r: Runner, s: State, b: nat)
    requires PoolsInv(r, s) && Missing(r, s, b)
    ensures !CanEnd(r, s, b)
  {
    forall es | AllThrowless(es)
      ensures !HasEnded(Exec(r, s, es), b)
    {
      MissingEver(r, s, es, b);
      MissingNotEnded(r, Exec(r, s, es), b);
    }
  }

  /** After any run a dispatched batch can still be brought to its end by tasks that return exactly when the slots it needs are
      there: a staging slot for a preprocess still to run before any that has thrown, an output slot and a filter slot if none
      has thrown, a filter slot while its output waits. */
  lemma BatchEndsIff(r: Runner, init: State, es: seq<Event>, b: nat)
    requires SlotWise(r) && r.batch > 0 && Initial(r, init) && b < |Exec(r, init, es).core.batches|
    ensures CanEnd(r, Exec(r, init, es), b) <==> EndsLeft(r, Exec(r, init, es), b)
  {
    SizesInvHolds(r, init, es);
    if EndsLeft(r, Exec(r, init, es), b) {
      var more := EndComes(r, Exec(r, init, es), b);
    } else {
      MissingCannotEnd(r, Exec(r, init, es), b);
    }
  }
}
