/** The batch scheduler over its pools can do whatever the one with buffers of the batches' own can, as long as the slots for it
    are there: the other direction of BatchRefinement.RunsRefine. */
module BatchFollows {
  import opened Runner
  import opened BufferSlots
  import opened Gathering
  import opened BatchBuffers
  import opened BatchRefinement
  import Ideal = BatchScheduler

  // ---------- a slot is returned when no preprocess is left ----------

  ghost predicate DoneIfReturned(s: State, b: nat) {
    b < |s.core.batches| && b < |s.loans| && s.loans[b].returned ==>
      forall i :: 0 <= i < |s.core.batches[b].pre| ==> s.core.batches[b].pre[i].Done?
  }

  ghost predicate ReturnedInv(s: State) {
    forall b: nat :: DoneIfReturned(s, b)
  }

  lemma InferKeepsReturned(r: Runner, s: State, b: nat, end: InferEnd)
    requires LoansInv(r, s) && Enabled(r, s, Infer(b, end))
    ensures DoneIfReturned(Step(r, s, Infer(b, end)), b)
  {
    assert LoanInv(r, s.core.batches[b], s.loans[b]);
  }

  lemma RoundKeepsReturned(r: Runner, s: State, wrapped: seq<Params>, b: nat)
    requires PoolsInv(r, s) && DoneIfReturned(s, b) && Enabled(r, s, Round(wrapped))
    ensures DoneIfReturned(Step(r, s, Round(wrapped)), b)
  {
    RoundDispatches(r, s, wrapped);
  }

  lemma TaskKeepsReturned(r: Runner, s: State, e: Event, b: nat)
    requires LoansInv(r, s) && DoneIfReturned(s, b) && Enabled(r, s, e) && !e.Round? && !e.Infer?
    ensures DoneIfReturned(Step(r, s, e), b)
  {
  }

  lemma StepKeepsReturned(r: Runner, s: State, e: Event)
    requires PoolsInv(r, s) && ReturnedInv(s)
    ensures ReturnedInv(Step(r, s, e))
  {
    if Enabled(r, s, e) {
      forall b: nat
        ensures DoneIfReturned(Step(r, s, e), b)
      {
        assert DoneIfReturned(s, b);
        match e
        case Round(wrapped) => RoundKeepsReturned(r, s, wrapped, b);
        case Infer(c, end) => if c == b { InferKeepsReturned(r, s, b, end); }
        case _ => TaskKeepsReturned(r, s, e, b);
      }
    }
  }

  lemma {:induction false} ReturnedInvHolds(r: Runner, init: State, es: seq<Event>)
    requires r.batch > 0 && Initial(r, init)
    ensures ReturnedInv(Exec(r, init, es))
  {
    if es != [] {
      ReturnedInvHolds(r, init, es[..|es| - 1]);
      PoolsInvHolds(r, init, es[..|es| - 1]);
      StepKeepsReturned(r, Exec(r, init, es[..|es| - 1]), es[|es| - 1]);
    }
  }

  // ---------- the steps ----------

  /** The slots are there that a step needs, and it reads no other image than its own. */
  predicate SlotsFor(r: Runner, s: State, e: Event) {
    match e
    case Round(_) => s.inputs.free != [] && s.inputs.free[0] < |s.inputs.memory|
    case Prep(_, _, prep, over) => over.None? && (r.staging.Staged? && prep != PrepThrew(false) ==> s.staging > 0)
    case Infer(_, end) => r.output.Pooled? && end != Threw(false) ==> s.outputs.free != []
    case Post(_, answer) => r.filtered && answer != PostThrew(false) ==> s.filters > 0
    case Work(_, t) => !t.Preprocess? && !t.Infer? && !t.Post?
    case Return(_) => false
    case _ => true
  }

  /** The other description allows the step. */
  predicate Allowed(r: Runner, s: State, ideal: Ideal.State, e: Event) {
    SlotsFor(r, s, e) && Ideal.Enabled(r, ideal, Translated(s, e))
  }

  lemma PrepFollows(r: Runner, s: State, ideal: Ideal.State, b: nat, i: nat, prep: PrepEnd)
    requires PoolsInv(r, s) && ReturnedInv(s) && Related(s, ideal) && Allowed(r, s, ideal, Prep(b, i, prep, Option.None))
    ensures Enabled(r, s, Prep(b, i, prep, Option.None))
  {
    assert RelatedBatch(s, b, ideal.batches[b]) && LoanInv(r, s.core.batches[b], s.loans[b]) && DoneIfReturned(s, b);
  }

  lemma InferFollows(r: Runner, s: State, ideal: Ideal.State, b: nat, end: InferEnd)
    requires PoolsInv(r, s) && Related(s, ideal) && Allowed(r, s, ideal, Infer(b, end))
    ensures Enabled(r, s, Infer(b, end))
  {
    assert RelatedBatch(s, b, ideal.batches[b]) && LoanInv(r, s.core.batches[b], s.loans[b]);
    if s.outputs.free != [] {
      assert s.outputs.free[0] in s.outputs.free;
    }
  }

  lemma WorkFollows(r: Runner, s: State, ideal: Ideal.State, e: Event)
    requires PoolsInv(r, s) && Related(s, ideal) && Allowed(r, s, ideal, e) && (e.Work? || e.Post?)
    ensures Enabled(r, s, e)
  {
    var b := e.batch;
    assert RelatedBatch(s, b, ideal.batches[b]);
    TaskIgnoresPlanes(r, ideal.batches[b], Loaded(s, b).planes, Translated(s, e).task);
  }

  lemma StepFollows(r: Runner, s: State, ideal: Ideal.State, e: Event)
    requires PoolsInv(r, s) && ReturnedInv(s) && Related(s, ideal) && Allowed(r, s, ideal, e)
    ensures Enabled(r, s, e) && !e.Return?
  {
    match e
    case Prep(b, i, prep, _) => PrepFollows(r, s, ideal, b, i, prep);
    case Infer(b, end) => InferFollows(r, s, ideal, b, end);
    case Work(_, _) => WorkFollows(r, s, ideal, e);
    case Post(_, _) => WorkFollows(r, s, ideal, e);
    case _ =>
  }

  /** After any run in which the answers cannot get mixed, every step that the scheduler with buffers of the batches' own could
      make next can be made over the pools, with the same effect, if the slots for it are there; and a release callback that has
      still to run always can. Nothing else ever holds a request back. */
  lemma StepsFollow(r: Runner, init: State, es: seq<Event>) returns (ideal: seq<Ideal.Event>)
    requires SlotWise(r) && r.batch > 0 && Initial(r, init) && Spaced(r, init, es) && NeverTorn(r, init)
    ensures Related(Exec(r, init, es), Ideal.Exec(r, Ideal.START, ideal))
    ensures forall e ::
      Allowed(r, Exec(r, init, es), Ideal.Exec(r, Ideal.START, ideal), e) && Spares(r, Exec(r, init, es), e) ==>
        Related(Exec(r, init, es + [e]), Ideal.Exec(r, Ideal.START, ideal + [Translated(Exec(r, init, es), e)]))
    ensures forall k: nat :: k in Exec(r, init, es).outputs.owed ==>
      Exec(r, init, es + [Return(k)]).outputs.free == Exec(r, init, es).outputs.free + [k]
  {
    ideal := RunsRefine(r, init, es);
    PoolsInvHolds(r, init, es);
    ReturnedInvHolds(r, init, es);
    var s := Exec(r, init, es);
    forall e | Allowed(r, s, Ideal.Exec(r, Ideal.START, ideal), e) && Spares(r, s, e)
      ensures Related(Exec(r, init, es + [e]), Ideal.Exec(r, Ideal.START, ideal + [Translated(s, e)]))
    {
      StepFollows(r, s, Ideal.Exec(r, Ideal.START, ideal), e);
      StepRefines(r, s, Ideal.Exec(r, Ideal.START, ideal), e);
      ExecOneMore(r, init, es, e);
      Ideal.ExecOneMore(r, ideal, Translated(s, e));
    }
    forall k: nat | k in s.outputs.owed
      ensures Exec(r, init, es + [Return(k)]).outputs.free == s.outputs.free + [k]
    {
      ExecOneMore(r, init, es, Return(k));
    }
  }

  /** And when one of two images that are preprocessed side by side does not fit its staging slot, whichever batches and slots of a
      batch they are for, each one's preprocess may read what is there instead. */
  lemma OverrunReads(r: Runner, init: State, es: seq<Event>, b: nat, i: nat, c: nat, j: nat, seen: Image)
    requires r.batch > 0 && Initial(r, init) && (b != c || i != j)
    requires var s := Exec(r, init, es);
      && s.staging >= 2 && |s.inputs.memory| >= 2
      && b < |s.core.batches| && i < |s.core.batches[b].pre| && s.core.batches[b].pre[i].Pending? && i < |s.core.batches[b].inputs|
      && c < |s.core.batches| && j < |s.core.batches[c].pre| && s.core.batches[c].pre[j].Pending? && j < |s.core.batches[c].inputs|
      && r.staging.Staged? && !(r.staging.fits(s.core.batches[b].inputs[i]) && r.staging.fits(s.core.batches[c].inputs[j]))
      && r.staging.sees(s.core.batches[b].inputs[i], s.core.batches[c].inputs[j], seen)
    ensures var s, t := Exec(r, init, es), Exec(r, init, es + [Prep(b, i, PrepDone, Some(Beside(c, j, seen)))]);
      && b < |s.loans| && s.loans[b].input < |t.inputs.memory| && i < |t.inputs.memory[s.loans[b].input]| == r.batch
      && t.inputs.memory[s.loans[b].input][i] == r.pixels(seen)
      && b < |t.core.batches| && t.core.batches[b].pre == s.core.batches[b].pre[i := Ideal.Done]
  {
    PoolsInvHolds(r, init, es);
    ReturnedInvHolds(r, init, es);
    var s, over := Exec(r, init, es), Some(Beside(c, j, seen));
    assert DoneIfReturned(s, b) && Tracked(s, b) && LoanInv(r, s.core.batches[b], s.loans[b]);
    OverrunPrep(r, s, b, i, over);
    ExecOneMore(r, init, es, Prep(b, i, PrepDone, over));
  }

  lemma OverrunPrep(r: Runner, s: State, b: nat, i: nat, over: Option<Beside>)
    requires Tracked(s, b) && PendingAt(s, b, i) && OverEnabled(r, s, b, i, over) && over.Some? && s.staging > 0
    requires !s.loans[b].returned && LoanInv(r, s.core.batches[b], s.loans[b]) && |s.inputs.memory[s.loans[b].input]| == r.batch
    ensures var t := Step(r, s, Prep(b, i, PrepDone, over));
      && |t.inputs.memory| == |s.inputs.memory|
      && t.inputs.memory[s.loans[b].input] == s.inputs.memory[s.loans[b].input][i := r.pixels(over.value.seen)]
      && b < |t.core.batches| && t.core.batches[b].pre == s.core.batches[b].pre[i := Ideal.Done]
  {
    assert Enabled(r, s, Prep(b, i, PrepDone, over));
  }

  // ---------- slots that are kept ----------

  /** How many of a run's preprocesses kept a staging slot. */
  ghost function StagingKept(r: Runner, init: State, es: seq<Event>): nat {
    if es == [] then 0
    else
      var n := |es| - 1;
      StagingKept(r, init, es[..n]) +
      if r.staging.Staged? && es[n].Prep? && es[n].prep == PrepThrew(true) && Enabled(r, Exec(r, init, es[..n]), es[n]) then 1 else 0
  }

  /** How many of its postprocesses kept a filter slot: those that threw while they had it, and those that found nothing. */
  ghost function FiltersKept(r: Runner, init: State, es: seq<Event>): nat {
    if es == [] then 0
    else
      var n := |es| - 1;
      FiltersKept(r, init, es[..n]) +
      if r.filtered && es[n].Post? && (es[n].answer == PostThrew(true) || es[n].answer == Answered(false))
         && Enabled(r, Exec(r, init, es[..n]), es[n]) then 1 else 0
  }

  /** In every run the staging and filter slots are the ones that are left and the ones that were kept. */
  lemma {:induction false} KeptSlotsAccountedFor(r: Runner, init: State, es: seq<Event>)
    ensures Exec(r, init, es).staging + StagingKept(r, init, es) == init.staging
    ensures Exec(r, init, es).filters + FiltersKept(r, init, es) == init.filters
  {
    if es != [] {
      KeptSlotsAccountedFor(r, init, es[..|es| - 1]);
      SlotsKeptBy(r, Exec(r, init, es[..|es| - 1]), es[|es| - 1]);
    }
  }

  lemma SlotsKeptBy(r: Runner, s: State, e: Event)
    ensures Step(r, s, e).staging == s.staging -
      if r.staging.Staged? && e.Prep? && e.prep == PrepThrew(true) && Enabled(r, s, e) then 1 else 0
    ensures Step(r, s, e).filters == s.filters -
      if r.filtered && e.Post? && (e.answer == PostThrew(true) || e.answer == Answered(false)) && Enabled(r, s, e) then 1 else 0
  {
  }
}
