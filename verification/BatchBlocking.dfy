/** When a dispatched batch can be brought to its end, and when the batch scheduler's worker waits for a tensor buffer for good.
    It asks for one while it holds the mutex (include/scheduler/BatchScheduler.h), so then no caller can submit any more. */
module BatchBlocking {
  import opened Runner
  import opened Arithmetic
  import opened BufferSlots
  import opened Gathering
  import opened BatchBuffers
  import opened BatchRuns
  import Ideal = BatchScheduler

  ghost predicate NoneFailed(batch: Ideal.Batch) {
    batch.phase.Awaiting? && forall i :: 0 <= i < |batch.pre| ==> !batch.pre[i].Failed?
  }

  ghost predicate SomePending(batch: Ideal.Batch) {
    exists i :: 0 <= i < |batch.pre| && batch.pre[i].Pending?
  }

  /** A batch that may still give its input slot back: it waits for its inference, no preprocess task has thrown, and if one is
      still to run there is a staging slot for it. */
  ghost predicate Able(r: Runner, s: State, b: nat) {
    && b < |s.core.batches| && b < |s.loans|
    && !s.loans[b].returned && NoneFailed(s.core.batches[b])
    && (r.staging.Staged? && SomePending(s.core.batches[b]) ==> s.staging > 0)
  }

  /** A postprocess that throws before it asks for its filter slot. */
  predicate ThrowsEarly(r: Runner, e: Event) {
    r.filtered && e.Post? && e.answer == PostThrew(false)
  }

  /** Some output slot is free, about to be returned, or held by a batch whose postprocess can still return it: there is a
      filter slot for it, or it may throw before it needs one (`early`). */
  ghost predicate OutputsLeft(r: Runner, s: State, early: bool) {
    r.output.Pooled? ==>
      || s.outputs.free != [] || s.outputs.owed != multiset{}
      || (Gather(HeldOutput, s.loans) != multiset{} && (r.filtered && !early ==> s.filters > 0))
  }

  ghost predicate BufferComes(r: Runner, s: State, early: bool) {
    s.inputs.free != [] || ((exists b: nat :: Able(r, s, b)) && OutputsLeft(r, s, early))
  }

  /** Continuations in which, unless `early`, no postprocess throws before it asks for its filter slot. */
  ghost predicate Regular(r: Runner, es: seq<Event>, early: bool) {
    !early ==> forall k :: 0 <= k < |es| ==> !ThrowsEarly(r, es[k])
  }

  // ---------- a buffer comes ----------

  /** Work left before the inference of a batch. */
  function Left(batch: Ideal.Batch): nat {
    Ideal.PendingCount(batch.pre) +
    if batch.phase.Awaiting? && batch.phase.next <= |batch.pre| then |batch.pre| - batch.phase.next else 0
  }

  lemma PrepAdvances(r: Runner, batch: Ideal.Batch, seen: Image)
    requires batch.phase.Awaiting? && Ideal.TaskEnabled(batch, Ideal.Preprocess(batch.phase.next, true))
    ensures var batch' := PrepStep(r, batch, batch.phase.next, PrepDone, seen);
      && Left(batch') < Left(batch) && (NoneFailed(batch) ==> NoneFailed(batch'))
      && (SomePending(batch') ==> SomePending(batch))
  {
    Ideal.PendingCountUpdate(batch.pre, batch.phase.next, Ideal.Done);
    if SomePending(PrepStep(r, batch, batch.phase.next, PrepDone, seen)) {
      assert batch.pre[batch.phase.next].Pending?;
    }
  }

  /** The next task of a batch that waits for its preprocess futures. */
  lemma PreparedOne(r: Runner, s: State, b: nat) returns (e: Event)
    requires PoolsInv(r, s) && Able(r, s, b) && s.core.batches[b].phase.next < |s.core.batches[b].pre|
    ensures Throwless(e)
    ensures var s' := Step(r, s, e);
      && PoolsInv(r, s') && Able(r, s', b) && Untouched(s, s', b)
      && Left(s'.core.batches[b]) < Left(s.core.batches[b])
  {
    assert Tracked(s, b) && LoanInv(r, s.core.batches[b], s.loans[b]);
    var loaded := Loaded(s, b);
    if loaded.pre[loaded.phase.next].Pending? {
      e := Prep(b, loaded.phase.next, PrepDone, Option.None);
      assert SomePending(s.core.batches[b]);
      PrepAdvances(r, loaded, loaded.inputs[loaded.phase.next]);
      PrepKept(r, s, b, loaded.phase.next);
    } else {
      e := Work(b, Ideal.AwaitPre);
      AwaitKept(r, s, b);
    }
    StepKeepsPools(r, s, e);
  }

  /** Only batch b's own tasks have run, up to its inference. */
  ghost predicate Untouched(s: State, s': State, b: nat)
    requires b < |s.core.batches|
  {
    && s'.outputs == s.outputs && s'.loans == s.loans && s'.staging == s.staging && s'.filters == s.filters
    && |s'.core.batches| == |s.core.batches| && s'.core.batches == s.core.batches[b := s'.core.batches[b]]
    && s'.core.batches[b].results == s.core.batches[b].results
  }

  lemma PrepKept(r: Runner, s: State, b: nat, i: nat)
    requires Enabled(r, s, Prep(b, i, PrepDone, Option.None))
    ensures var s' := Prepped(r, s, b, i, PrepDone, Option.None);
      && Untouched(s, s', b)
      && s'.core.batches[b] == Kept(PrepStep(r, Loaded(s, b), i, PrepDone, s.core.batches[b].inputs[i]), s.loans[b])
  {
    assert s.loans[b := s.loans[b]] == s.loans;
  }

  lemma AwaitKept(r: Runner, s: State, b: nat)
    requires Enabled(r, s, Work(b, Ideal.AwaitPre))
    ensures var s' := Worked(r, s, b, Ideal.AwaitPre);
      && Untouched(s, s', b) && s'.inputs == s.inputs
      && s'.core.batches[b] == Kept(Ideal.TaskStep(r, Loaded(s, b), Ideal.AwaitPre), s.loans[b])
  {
    assert s.loans[b := s.loans[b]] == s.loans;
  }

  lemma OneStep(r: Runner, s: State, e: Event)
    ensures Exec(r, s, [e]) == Step(r, s, e)
  {
    ExecOneMore(r, s, [], e);
    assert [] + [e] == [e];
  }

  lemma StepThenRest(r: Runner, s: State, e: Event, rest: seq<Event>) returns (es: seq<Event>)
    ensures Throwless(e) && AllThrowless(rest) ==> AllThrowless(es)
    ensures Exec(r, s, es) == Exec(r, Step(r, s, e), rest)
  {
    es := [e] + rest;
    ExecJoins(r, s, [e], rest);
    OneStep(r, s, e);
  }

  lemma Joined(r: Runner, s: State, es: seq<Event>, more: seq<Event>) returns (all: seq<Event>)
    ensures AllThrowless(es) && AllThrowless(more) ==> AllThrowless(all)
    ensures Exec(r, s, all) == Exec(r, Exec(r, s, es), more)
  {
    all := es + more;
    ExecJoins(r, s, es, more);
  }

  lemma {:induction false} Prepared(r: Runner, s: State, b: nat) returns (es: seq<Event>)
    requires PoolsInv(r, s) && Able(r, s, b)
    ensures AllThrowless(es)
    ensures var s' := Exec(r, s, es);
      && PoolsInv(r, s') && Able(r, s', b) && Untouched(s, s', b)
      && s'.core.batches[b].phase.next == |s'.core.batches[b].pre|
    decreases Left(s.core.batches[b])
  {
    es := [];
    assert LoanInv(r, s.core.batches[b], s.loans[b]);
    if s.core.batches[b].phase.next < |s.core.batches[b].pre| {
      var e := PreparedOne(r, s, b);
      var rest := Prepared(r, Step(r, s, e), b);
      es := StepThenRest(r, s, e, rest);
    }
  }

  lemma InferEnabled(r: Runner, s: State, b: nat)
    requires PoolsInv(r, s) && Able(r, s, b) && s.core.batches[b].phase.next == |s.core.batches[b].pre|
    requires r.output.Pooled? ==> s.outputs.free != []
    ensures Enabled(r, s, Infer(b, Accepted))
  {
    assert Tracked(s, b) && LoanInv(r, s.core.batches[b], s.loans[b]);
    assert r.output.Pooled? ==> s.outputs.free[0] in s.outputs.free;
  }

  /** The state after batch b's inference. */
  lemma InferLeaves(r: Runner, s: State, b: nat)
    requires PoolsInv(r, s) && Enabled(r, s, Infer(b, Accepted))
    ensures var s' := Inferred(r, s, b, Accepted);
      && PoolsInv(r, s') && s'.inputs.free != [] && s'.filters == s.filters
      && |s'.core.batches| == |s.core.batches| && s'.core.batches[b].phase.PostQueued?
  {
    InferKeepsPools(r, s, b, Accepted);
  }

  /** Batches that wait for their inference are as they were. */
  ghost predicate AwaitingSame(s: State, s': State) {
    && |s'.loans| == |s.loans| && |s'.core.batches| == |s.core.batches| && s'.inputs == s.inputs
    && s'.staging == s.staging && s'.filters == s.filters
    && forall b :: 0 <= b < |s.loans| && b < |s.core.batches| && s.core.batches[b].phase.Awaiting? ==>
         s'.core.batches[b] == s.core.batches[b] && s'.loans[b] == s.loans[b]
  }

  lemma PostHeld(r: Runner, s: State, c: nat, answer: PostEnd)
    requires PoolsInv(r, s) && c < |s.loans| && s.loans[c].output.Some?
    requires answer == Answered(true) || answer == PostThrew(false)
    requires r.filtered && answer.Answered? ==> s.filters > 0
    ensures Enabled(r, s, Post(c, answer)) && PoolsInv(r, Posted(r, s, c, answer))
    ensures s.loans[c].output.value in Posted(r, s, c, answer).outputs.owed
    ensures AwaitingSame(s, Posted(r, s, c, answer))
  {
    assert Tracked(s, c) && LoanInv(r, s.core.batches[c], s.loans[c]);
    PostKeepsPools(r, s, c, answer);
  }

  /** Gets an output slot into the queue. */
  lemma OutputComes(r: Runner, s: State, early: bool) returns (es: seq<Event>)
    requires PoolsInv(r, s) && r.output.Pooled? && OutputsLeft(r, s, early)
    ensures early || AllThrowless(es)
    ensures var s' := Exec(r, s, es); PoolsInv(r, s') && s'.outputs.free != [] && AwaitingSame(s, s')
  {
    if s.outputs.free != [] {
      return [];
    }
    if k :| k in s.outputs.owed {
      OwedReturns(r, s, k);
      OneStep(r, s, Return(k));
      return [Return(k)];
    }
    var c := GatherSome(HeldOutput, s.loans);
    es := HeldComes(r, s, c, if r.filtered && s.filters == 0 then PostThrew(false) else Answered(true));
  }

  lemma HeldComes(r: Runner, s: State, c: nat, answer: PostEnd) returns (es: seq<Event>)
    requires PoolsInv(r, s) && c < |s.loans| && s.loans[c].output.Some?
    requires answer == Answered(true) || answer == PostThrew(false)
    requires r.filtered && answer.Answered? ==> s.filters > 0
    ensures answer.Answered? ==> AllThrowless(es)
    ensures var s' := Exec(r, s, es); PoolsInv(r, s') && s'.outputs.free != [] && AwaitingSame(s, s')
  {
    var k := s.loans[c].output.value;
    var post := PostedHeld(r, s, c, answer);
    var pay := PaidAfter(r, Exec(r, s, post), k);
    es := Joined(r, s, post, pay);
  }

  lemma PostedHeld(r: Runner, s: State, c: nat, answer: PostEnd) returns (es: seq<Event>)
    requires PoolsInv(r, s) && c < |s.loans| && s.loans[c].output.Some?
    requires answer == Answered(true) || answer == PostThrew(false)
    requires r.filtered && answer.Answered? ==> s.filters > 0
    ensures answer.Answered? ==> AllThrowless(es)
    ensures var s' := Exec(r, s, es); PoolsInv(r, s') && AwaitingSame(s, s') && s.loans[c].output.value in s'.outputs.owed
  {
    PostHeld(r, s, c, answer);
    es := PostStep(r, s, c, answer);
  }

  lemma PaidAfter(r: Runner, s: State, k: nat) returns (es: seq<Event>)
    requires PoolsInv(r, s) && k in s.outputs.owed
    ensures AllThrowless(es)
    ensures var s' := Exec(r, s, es);
      PoolsInv(r, s') && s' == s.(outputs := s'.outputs) && s'.outputs.free != []
  {
    OwedReturns(r, s, k);
    OneStep(r, s, Return(k));
    es := [Return(k)];
  }

  /** With the inputs and outputs it needs, a batch can be inferred. */
  lemma InferenceComes(r: Runner, s: State, b: nat, early: bool) returns (es: seq<Event>)
    requires PoolsInv(r, s) && Able(r, s, b) && OutputsLeft(r, s, early)
    ensures early || AllThrowless(es)
    ensures var s' := Exec(r, s, es);
      && PoolsInv(r, s') && s'.inputs.free != [] && s'.filters == s.filters
      && |s'.core.batches| == |s.core.batches| && s'.core.batches[b].phase.PostQueued?
  {
    es := [];
    assert LoanInv(r, s.core.batches[b], s.loans[b]);
    if r.output.Pooled? {
      es := OutputComes(r, s, early);
    }
    var s1 := Exec(r, s, es);
    var more := Prepared(r, s1, b);
    es := Joined(r, s, es, more);
    more := InferDone(r, Exec(r, s, es), b);
    es := Joined(r, s, es, more);
  }

  lemma InferDone(r: Runner, s: State, b: nat) returns (es: seq<Event>)
    requires PoolsInv(r, s) && Able(r, s, b) && s.core.batches[b].phase.next == |s.core.batches[b].pre|
    requires r.output.Pooled? ==> s.outputs.free != []
    ensures AllThrowless(es)
    ensures var s' := Exec(r, s, es);
      && PoolsInv(r, s') && s'.inputs.free != [] && s'.filters == s.filters
      && |s'.core.batches| == |s.core.batches| && s'.core.batches[b].phase.PostQueued?
  {
    InferEnabled(r, s, b);
    InferLeaves(r, s, b);
    es := InferStep(r, s, b, Accepted);
  }

  lemma BufferCanCome(r: Runner, s: State, early: bool) returns (es: seq<Event>)
    requires PoolsInv(r, s) && BufferComes(r, s, early)
    ensures Regular(r, es, early) && Exec(r, s, es).inputs.free != []
  {
    es := [];
    if s.inputs.free == [] {
      var b: nat :| Able(r, s, b);
      es := InferenceComes(r, s, b, early);
    }
  }

  // ---------- none comes ----------

  /** No batch of s becomes able by what is done to batch b alone, if b does not. */
  ghost predicate NoneMoreAble(r: Runner, s: State, s': State) {
    forall c: nat :: Able(r, s', c) ==> Able(r, s, c)
  }

  lemma UnhealthyPrep(r: Runner, batch: Ideal.Batch, i: nat, prep: PrepEnd, seen: Image)
    requires Ideal.TaskEnabled(batch, Ideal.Preprocess(i, true)) && NoneFailed(PrepStep(r, batch, i, prep, seen))
    ensures NoneFailed(batch) && prep.PrepDone?
    ensures SomePending(batch)
  {
    var batch' := PrepStep(r, batch, i, prep, seen);
    assert i < |batch'.pre| && !batch'.pre[i].Failed?;
    forall j | 0 <= j < |batch.pre|
      ensures !batch.pre[j].Failed?
    {
      assert !batch'.pre[j].Failed?;
    }
  }

  lemma NoBufferPrep(r: Runner, s: State, b: nat, i: nat, prep: PrepEnd, over: Option<Beside>)
    requires PoolsInv(r, s) && Enabled(r, s, Prep(b, i, prep, over))
    ensures var s' := Prepped(r, s, b, i, prep, over);
      s'.inputs.free == s.inputs.free && s'.loans == s.loans && s'.outputs == s.outputs && s'.filters == s.filters && NoneMoreAble(r, s, s')
  {
    var s' := Prepped(r, s, b, i, prep, over);
    assert s.loans[b := s.loans[b]] == s.loans;
    forall c: nat | Able(r, s', c)
      ensures Able(r, s, c)
    {
      if c == b {
        UnhealthyPrep(r, Loaded(s, b), i, prep, Seen(s.core.batches[b].inputs[i], over));
      }
    }
  }

  lemma UnhealthyStays(r: Runner, batch: Ideal.Batch, t: Ideal.Task)
    requires Ideal.TaskEnabled(batch, t) && !t.Preprocess? && NoneFailed(Ideal.TaskStep(r, batch, t))
    ensures NoneFailed(batch) && (SomePending(batch) ==> SomePending(Ideal.TaskStep(r, batch, t)))
  {
    var batch' := Ideal.TaskStep(r, batch, t);
    assert batch'.pre == batch.pre;
  }

  lemma NoBufferWork(r: Runner, s: State, b: nat, t: Ideal.Task)
    requires PoolsInv(r, s) && Enabled(r, s, Work(b, t))
    ensures var s' := Worked(r, s, b, t);
      s'.inputs == s.inputs && s'.loans == s.loans && s'.outputs == s.outputs && s'.filters == s.filters && NoneMoreAble(r, s, s')
  {
    var s' := Worked(r, s, b, t);
    assert s.loans[b := s.loans[b]] == s.loans;
    forall c: nat | Able(r, s', c)
      ensures Able(r, s, c)
    {
      if c == b {
        UnhealthyStays(r, Loaded(s, b), t);
      }
    }
  }

  lemma NoBufferInfer(r: Runner, s: State, b: nat, end: InferEnd, early: bool)
    requires PoolsInv(r, s) && !BufferComes(r, s, early) && Enabled(r, s, Infer(b, end))
    ensures end == Threw(false)
    ensures var s' := Inferred(r, s, b, end);
      s'.inputs == s.inputs && s'.loans == s.loans && s'.outputs == s.outputs && s'.filters == s.filters && NoneMoreAble(r, s, s')
  {
    assert LoanInv(r, s.core.batches[b], s.loans[b]);
    assert NoneFailed(s.core.batches[b]) && !SomePending(s.core.batches[b]);
    assert Able(r, s, b);
    assert s.loans[b := s.loans[b]] == s.loans;
  }

  lemma NoBufferPost(r: Runner, s: State, b: nat, answer: PostEnd)
    requires PoolsInv(r, s) && Enabled(r, s, Post(b, answer))
    ensures var s' := Posted(r, s, b, answer);
      s'.inputs == s.inputs && |s'.loans| == |s.loans| && NoneMoreAble(r, s, s')
  {
  }

  lemma PostMeansOutputsLeft(r: Runner, s: State, b: nat, answer: PostEnd, early: bool)
    requires PoolsInv(r, s) && Enabled(r, s, Post(b, answer)) && (early || !ThrowsEarly(r, Post(b, answer)))
    ensures OutputsLeft(r, s, early)
  {
    assert LoanInv(r, s.core.batches[b], s.loans[b]);
    GatherHas(HeldOutput, s.loans, b);
    assert s.loans[b].output.Some? ==> s.loans[b].output.value in Gather(HeldOutput, s.loans);
  }

  lemma NoBufferFromTasks(r: Runner, s: State, e: Event, early: bool)
    requires PoolsInv(r, s) && !BufferComes(r, s, early) && Enabled(r, s, e) && (early || !ThrowsEarly(r, e))
    requires e.Prep? || e.Work? || e.Infer? || e.Post?
    ensures !BufferComes(r, Step(r, s, e), early)
  {
    match e
    case Prep(b, i, prep, over) => NoBufferPrep(r, s, b, i, prep, over);
    case Work(b, t) => NoBufferWork(r, s, b, t);
    case Infer(b, end) => NoBufferInfer(r, s, b, end, early);
    case Post(b, answer) =>
      PostMeansOutputsLeft(r, s, b, answer, early);
      NoBufferPost(r, s, b, answer);
  }

  /** Once no buffer can come, none ever will, whatever is done. */
  lemma NoBufferStays(r: Runner, s: State, e: Event, early: bool)
    requires PoolsInv(r, s) && !BufferComes(r, s, early) && (early || !ThrowsEarly(r, e))
    ensures !BufferComes(r, Step(r, s, e), early)
  {
    if Enabled(r, s, e) {
      if e.Prep? || e.Work? || e.Infer? || e.Post? {
        NoBufferFromTasks(r, s, e, early);
      } else {
        NoBufferCallers(r, s, Step(r, s, e), early);
      }
    }
  }

  lemma NoBufferCallers(r: Runner, s: State, s': State, early: bool)
    requires !BufferComes(r, s, early) && s'.core.batches == s.core.batches && s'.loans == s.loans && s'.inputs == s.inputs
    requires s'.staging == s.staging && s'.filters == s.filters
    requires s'.outputs == s.outputs || OutputsLeft(r, s, early)
    ensures !BufferComes(r, s', early)
  {
    if b: nat :| Able(r, s', b) {
      assert Able(r, s, b);
    }
  }

  lemma {:induction false} NoBufferEver(r: Runner, s: State, es: seq<Event>, early: bool)
    requires PoolsInv(r, s) && !BufferComes(r, s, early) && Regular(r, es, early)
    ensures PoolsInv(r, Exec(r, s, es)) && !BufferComes(r, Exec(r, s, es), early)
  {
    if es != [] {
      NoBufferEver(r, s, es[..|es| - 1], early);
      StepKeepsPools(r, Exec(r, s, es[..|es| - 1]), es[|es| - 1]);
      NoBufferStays(r, Exec(r, s, es[..|es| - 1]), es[|es| - 1], early);
    }
  }

  /** After any run, getTensorBuffer can still return exactly when an input slot is free, or a batch waits for its inference
      without a thrown preprocess and with a staging slot for those still to run, and an output slot is left for it. The
      continuations are all those in which no postprocess throws before it asks for its filter slot, or (`early`) all. */
  lemma BufferComesIff(r: Runner, init: State, es: seq<Event>, early: bool)
    requires r.batch > 0 && Initial(r, init)
    ensures (exists more :: Regular(r, more, early) && Exec(r, init, es + more).inputs.free != [])
       <==> BufferComes(r, Exec(r, init, es), early)
  {
    PoolsInvHolds(r, init, es);
    var s := Exec(r, init, es);
    if BufferComes(r, s, early) {
      var more := BufferCanCome(r, s, early);
      ExecJoins(r, init, es, more);
    }
    if more :| Regular(r, more, early) && Exec(r, init, es + more).inputs.free != [] {
      ExecJoins(r, init, es, more);
      if !BufferComes(r, s, early) {
        NoBufferEver(r, s, more, early);
      }
    }
  }

  lemma BlockedStep(r: Runner, s: State, e: Event)
    requires s.core.worker.Batching? && s.inputs.free == []
    ensures var s' := Step(r, s, e);
      s'.core.worker == s.core.worker && s'.core.submitted == s.core.submitted && s'.core.inputs == s.core.inputs
  {
  }

  /** Blocked for good: the worker stays where it is, holding the mutex; no request is accepted and none leaves the queue. */
  lemma {:induction false} BlockedForGood(r: Runner, s: State, es: seq<Event>, early: bool)
    requires PoolsInv(r, s) && s.core.worker.Batching? && !BufferComes(r, s, early) && Regular(r, es, early)
    ensures var s' := Exec(r, s, es);
      s'.core.worker == s.core.worker && s'.core.submitted == s.core.submitted && s'.core.inputs == s.core.inputs
  {
    if es != [] {
      var t, e := Exec(r, s, es[..|es| - 1]), es[|es| - 1];
      BlockedForGood(r, s, es[..|es| - 1], early);
      NoBufferEver(r, s, es[..|es| - 1], early);
      BlockedStep(r, t, e);
    }
  }

  // ---------- counting ----------

  /** How many of the first n batches keep their input slot for good: a preprocess or the inference of each has thrown, or one
      of its preprocesses waits for a staging slot and there is none. */
  ghost function Spoiled(r: Runner, s: State, n: nat): nat
    requires n <= |s.loans| && n <= |s.core.batches|
  {
    if n == 0 then 0 else Spoiled(r, s, n - 1) + if Spoils(r, s, n - 1) then 1 else 0
  }

  ghost predicate Spoils(r: Runner, s: State, b: nat)
    requires b < |s.loans| && b < |s.core.batches|
  {
    !s.loans[b].returned
    && (!NoneFailed(s.core.batches[b]) || (r.staging.Staged? && s.staging == 0 && SomePending(s.core.batches[b])))
  }

  ghost function Waiting(r: Runner, s: State, n: nat): nat
    requires n <= |s.loans| && n <= |s.core.batches|
  {
    if n == 0 then 0 else Waiting(r, s, n - 1) + if Able(r, s, n - 1) then 1 else 0
  }

  lemma SpoilsOrAble(r: Runner, s: State, b: nat)
    requires b < |s.loans| && b < |s.core.batches|
    ensures |HeldInput(s.loans[b])| == (if Spoils(r, s, b) then 1 else 0) + (if Able(r, s, b) then 1 else 0)
  {
  }

  /** A batch that holds its input slot is spoiled or able. */
  lemma {:induction false} SpoiledHold(r: Runner, s: State, n: nat)
    requires n <= |s.loans| && n <= |s.core.batches|
    ensures |Gather(HeldInput, s.loans[..n])| == Spoiled(r, s, n) + Waiting(r, s, n)
  {
    if n > 0 {
      SpoiledHold(r, s, n - 1);
      assert s.loans[..n][..n - 1] == s.loans[..n - 1];
      SpoilsOrAble(r, s, n - 1);
    }
  }

  lemma {:induction false} WaitingIff(r: Runner, s: State, n: nat)
    requires n <= |s.loans| && n <= |s.core.batches|
    ensures Waiting(r, s, n) > 0 <==> exists b: nat :: b < n && Able(r, s, b)
  {
    if n > 0 {
      WaitingIff(r, s, n - 1);
    }
  }

  /** A slot is free or a batch may give one back exactly when fewer batches are spoiled than there are slots. */
  lemma SpoiledIff(r: Runner, s: State)
    requires PoolsInv(r, s)
    ensures s.inputs.free != [] || (exists b: nat :: Able(r, s, b)) <==> Spoiled(r, s, |s.loans|) < |s.inputs.memory|
  {
    SpoiledHold(r, s, |s.loans|);
    WaitingIff(r, s, |s.loans|);
    assert s.loans[..|s.loans|] == s.loans;
    ConservedApart(s.inputs, Gather(HeldInput, s.loans), 0);
  }

  /** A worker that waits for a buffer gets one in some continuation exactly when fewer batches are spoiled than there are input
      slots and, for output slots returned once, not all of them have been lost or are held by batches whose postprocess waits
      for a filter slot that there is not. */
  lemma WaitEndsIff(r: Runner, init: State, es: seq<Event>, early: bool)
    requires r.batch > 0 && Initial(r, init) && ReturnsOnce(r) && Exec(r, init, es).inputs.free == []
    ensures var s := Exec(r, init, es);
      var gone := |s.outputs.lost| + if r.filtered && !early && s.filters == 0 then |Gather(HeldOutput, s.loans)| else 0;
      && |s.loans| == |s.core.batches|
      && ((exists more :: Regular(r, more, early) && Exec(r, init, es + more).inputs.free != []) <==>
            Spoiled(r, s, |s.loans|) < |s.inputs.memory| && (r.output.Pooled? ==> gone < |s.outputs.memory|))
  {
    PoolsInvHolds(r, init, es);
    BufferComesIff(r, init, es, early);
    SpoiledIff(r, Exec(r, init, es));
    ConservedApart(Exec(r, init, es).outputs, Gather(HeldOutput, Exec(r, init, es).loans), 0);
  }

  // ---------- runs that block ----------

  ghost predicate NoneAble(r: Runner, s: State) {
    forall b: nat :: !Able(r, s, b)
  }

  /** After a run, one more request comes, and the worker waits for its buffer for good. */
  ghost predicate NextBlocks(r: Runner, init: State, es: seq<Event>, x: Image, early: bool) {
    var s := Exec(r, init, es + [Submit(x)] + [Wake(true)]);
    && s.core.inputs == [x]
    && forall more :: Regular(r, more, early) ==>
         var t := Exec(r, init, es + [Submit(x)] + [Wake(true)] + more);
         t.core.worker.Batching? && t.core.submitted == s.core.submitted && t.core.inputs == [x]
  }

  lemma BlocksNext(r: Runner, init: State, es: seq<Event>, x: Image, early: bool)
    requires var s := Exec(r, init, es);
      Idle(r, s) && s.inputs.free == [] && (NoneAble(r, s) || !OutputsLeft(r, s, early))
    ensures NextBlocks(r, init, es, x, early)
  {
    var s := Exec(r, init, es);
    SubmittedAndWoken(r, s, x);
    ExecOneMore(r, init, es, Submit(x));
    ExecOneMore(r, init, es + [Submit(x)], Wake(true));
    var t := Exec(r, init, es + [Submit(x)] + [Wake(true)]);
    NoBufferCallers(r, s, t, early);
    forall more | Regular(r, more, early)
      ensures var u := Exec(r, init, es + [Submit(x)] + [Wake(true)] + more);
        u.core.worker.Batching? && u.core.submitted == t.core.submitted && u.core.inputs == [x]
    {
      ExecJoins(r, init, es + [Submit(x)] + [Wake(true)], more);
      BlockedForGood(r, t, more, early);
    }
  }

  lemma ThrowOne(r: Runner, s: State, n: nat, i: nat, kept: bool)
    requires PoolsInv(r, s) && n < |s.loans| && PendingAt(s, n, i) && s.core.batches[n].phase.Awaiting? && (kept ==> s.staging > 0)
    ensures var s' := Step(r, s, Prep(n, i, PrepThrew(kept), Option.None));
      && PoolsInv(r, s') && s' == s.(core := s.core.(batches := s'.core.batches), staging := s'.staging)
      && s'.core.batches == s.core.batches[n := s.core.batches[n].(planes := [], pre := s.core.batches[n].pre[i := Ideal.Failed])]
      && s'.staging == (if r.staging.Staged? && kept then s.staging - 1 else s.staging)
  {
    assert Tracked(s, n) && LoanInv(r, s.core.batches[n], s.loans[n]);
    PrepKeepsPools(r, s, n, i, PrepThrew(kept), Option.None);
    ThrownState(r, s, n, i, kept);
  }

  lemma ThrownState(r: Runner, s: State, n: nat, i: nat, kept: bool)
    requires Enabled(r, s, Prep(n, i, PrepThrew(kept), Option.None)) && LoanInv(r, s.core.batches[n], s.loans[n])
    requires s.core.batches[n].phase.Awaiting?
    ensures var s' := Prepped(r, s, n, i, PrepThrew(kept), Option.None);
      && s' == s.(core := s.core.(batches := s'.core.batches), staging := s'.staging)
      && s'.core.batches == s.core.batches[n := s.core.batches[n].(planes := [], pre := s.core.batches[n].pre[i := Ideal.Failed])]
      && s'.staging == (if r.staging.Staged? && kept then s.staging - 1 else s.staging)
  {
    var k := s.loans[n].input;
    assert s.inputs.memory == s.inputs.memory[k := s.inputs.memory[k]] && s.loans == s.loans[n := s.loans[n]];
  }

  /** One more batch of one request, whose preprocess throws before it has a staging slot. */
  lemma SpoilNext(r: Runner, init: State, es: seq<Event>, x: Image, wrapped: seq<Params>) returns (more: seq<Event>)
    requires |wrapped| == r.batch && Ready(r, Exec(r, init, es)) && NoneAble(r, Exec(r, init, es))
    ensures var s, s' := Exec(r, init, es), Exec(r, init, more);
      && Idle(r, s') && NoneAble(r, s') && |s'.inputs.free| == |s.inputs.free| - 1
      && |s'.core.batches| == |s.core.batches| + 1
  {
    var s, n := Exec(r, init, es), |Exec(r, init, es).loans|;
    var es1 := DispatchOne(r, init, es, x, wrapped);
    ThrownLast(r, s, Exec(r, init, es1), x);
    more := One(r, init, es1, Prep(n, 0, PrepThrew(false), Option.None));
  }

  lemma ThrownLast(r: Runner, s: State, s1: State, x: Image)
    requires Idle(r, s) && NoneAble(r, s) && Idle(r, s1) && s1.staging == s.staging
    requires |s1.loans| == |s.loans| + 1 && s1.loans[..|s.loans|] == s.loans
    requires |s1.core.batches| == |s.core.batches| + 1 && s1.core.batches[..|s.core.batches|] == s.core.batches
    requires PendingAt(s1, |s.loans|, 0) && s1.core.batches[|s.loans|].phase.Awaiting?
    ensures var s2 := Step(r, s1, Prep(|s.loans|, 0, PrepThrew(false), Option.None));
      Idle(r, s2) && NoneAble(r, s2) && s2.inputs == s1.inputs && |s2.core.batches| == |s1.core.batches|
  {
    var n, s2 := |s.loans|, Step(r, s1, Prep(|s.loans|, 0, PrepThrew(false), Option.None));
    ThrowOne(r, s1, n, 0, false);
    assert s2.core.batches[n].pre[0].Failed?;
    assert s2.core.batches[..n] == s1.core.batches[..n];
    SpoiledLast(r, s, s2, n);
  }

  lemma SpoiledLast(r: Runner, s: State, s': State, n: nat)
    requires NoneAble(r, s) && |s.core.batches| == |s.loans| == n && |s'.core.batches| == |s'.loans| == n + 1
    requires s'.core.batches[..n] == s.core.batches && s'.loans[..n] == s.loans && s'.staging <= s.staging
    requires !NoneFailed(s'.core.batches[n]) || (r.staging.Staged? && s'.staging == 0 && SomePending(s'.core.batches[n]))
    ensures NoneAble(r, s')
  {
    forall b: nat
      ensures !Able(r, s', b)
    {
      if b < n {
        assert s'.core.batches[b] == s'.core.batches[..n][b] && s'.loans[b] == s'.loans[..n][b];
        assert !Able(r, s, b);
      }
    }
  }

  lemma {:induction false} SpoilRest(r: Runner, init: State, es: seq<Event>, x: Image, wrapped: seq<Params>) returns (more: seq<Event>)
    requires |wrapped| == r.batch && Idle(r, Exec(r, init, es)) && NoneAble(r, Exec(r, init, es))
    ensures var s, s' := Exec(r, init, es), Exec(r, init, more);
      Idle(r, s') && NoneAble(r, s') && s'.inputs.free == [] && |s'.core.batches| == |s.core.batches| + |s.inputs.free|
    decreases |Exec(r, init, es).inputs.free|
  {
    more := es;
    if Exec(r, init, es).inputs.free != [] {
      more := SpoilNext(r, init, es, x, wrapped);
      more := SpoilRest(r, init, more, x, wrapped);
    }
  }

  /** For any number of input slots, a run after which the worker holds the mutex for good: as many batches as there are
      slots have had a preprocess throw, and one more request comes. */
  lemma ThrowingPreprocessBlocks(r: Runner, init: State, x: Image, wrapped: seq<Params>) returns (es: seq<Event>)
    requires r.batch > 0 && |wrapped| == r.batch && Initial(r, init)
    ensures |Exec(r, init, es).core.batches| == |init.inputs.memory| && NextBlocks(r, init, es, x, true)
  {
    InitialPools(r, init);
    assert Exec(r, init, []) == init;
    es := SpoilRest(r, init, [], x, wrapped);
    BlocksNext(r, init, es, x, true);
  }

  // ---------- one batch of throwing preprocesses ----------

  function Copies(x: Image, n: nat): seq<Image> {
    seq(n, _ => x)
  }

  lemma {:induction false} SubmitMany(r: Runner, init: State, es: seq<Event>, x: Image, n: nat) returns (more: seq<Event>)
    requires Idle(r, Exec(r, init, es))
    ensures var s, s' := Exec(r, init, es), Exec(r, init, more);
      && PoolsInv(r, s') && s' == s.(core := s'.core) && s'.core.worker.Waiting? && !s'.core.closed
      && s'.core.batches == s.core.batches && s'.core.inputs == Copies(x, n)
  {
    more := es;
    if n > 0 {
      more := SubmitMany(r, init, es, x, n - 1);
      var s := Exec(r, init, more);
      StepKeepsPools(r, s, Submit(x));
      ExecOneMore(r, init, more, Submit(x));
      more := more + [Submit(x)];
      assert Copies(x, n) == Copies(x, n - 1) + [x];
    } else {
      assert Copies(x, 0) == [];
    }
  }

  /** n requests in one batch. */
  lemma DispatchMany(r: Runner, init: State, x: Image, n: nat, wrapped: seq<Params>) returns (es: seq<Event>)
    requires Initial(r, init) && 0 < n <= r.batch && |wrapped| == r.batch
    ensures var s := Exec(r, init, es);
      && Idle(r, s) && |s.core.batches| == 1 == |s.loans| && |s.inputs.free| == |init.inputs.memory| - 1
      && s.staging == init.staging && s.core.batches[0].phase == Ideal.Awaiting(0)
      && s.core.batches[0].inputs == Copies(x, n) && s.core.batches[0].pre == seq(n, _ => Ideal.Pending)
  {
    InitialPools(r, init);
    var none: seq<Event> := [];
    assert Exec(r, init, none) == init;
    es := SubmitMany(r, init, none, x, n);
    var s := Exec(r, init, es);
    StepKeepsPools(r, s, Wake(true));
    ExecOneMore(r, init, es, Wake(true));
    ManyDispatched(r, Step(r, s, Wake(true)), x, n, wrapped);
    ExecOneMore(r, init, es + [Wake(true)], Round(wrapped));
    es := es + [Wake(true)] + [Round(wrapped)];
  }

  lemma ManyDispatched(r: Runner, s: State, x: Image, n: nat, wrapped: seq<Params>)
    requires PoolsInv(r, s) && s.core.worker.Batching? && !s.core.closed && s.core.inputs == Copies(x, n) && s.core.batches == []
    requires s.inputs.free != [] && 0 < n <= r.batch && |wrapped| == r.batch
    ensures var s' := Step(r, s, Round(wrapped));
      && Idle(r, s') && |s'.core.batches| == 1 == |s'.loans| && s'.inputs == Taken(s.inputs) && s'.staging == s.staging
      && s'.core.batches[0].phase == Ideal.Awaiting(0)
      && s'.core.batches[0].inputs == Copies(x, n) && s'.core.batches[0].pre == seq(n, _ => Ideal.Pending)
  {
    TakenConserves(s.inputs, Gather(HeldInput, s.loans));
    RoundDispatches(r, s, wrapped);
    RoundKeepsPools(r, s, wrapped);
    assert s.core.inputs[..n] == Copies(x, n) && s.core.inputs[n..] == [];
  }

  /** The first n preprocesses of the one batch throw and keep their staging slots. */
  lemma {:induction false} ThrowMany(r: Runner, init: State, es: seq<Event>, n: nat) returns (more: seq<Event>)
    requires r.staging.Staged?
    requires var s := Exec(r, init, es);
      && Idle(r, s) && |s.core.batches| == 1 == |s.loans| && s.core.batches[0].phase == Ideal.Awaiting(0) && s.staging >= n
      && |s.core.batches[0].inputs| >= |s.core.batches[0].pre| >= n
      && forall i :: 0 <= i < |s.core.batches[0].pre| ==> s.core.batches[0].pre[i].Pending?
    ensures var s, s' := Exec(r, init, es), Exec(r, init, more);
      && Idle(r, s') && |s'.core.batches| == 1 == |s'.loans| && s'.core.batches[0].phase == Ideal.Awaiting(0)
      && s'.staging == s.staging - n && s'.inputs == s.inputs
      && |s'.core.batches[0].inputs| >= |s'.core.batches[0].pre| == |s.core.batches[0].pre|
      && forall i :: 0 <= i < |s'.core.batches[0].pre| ==>
           if i < n then s'.core.batches[0].pre[i].Failed? else s'.core.batches[0].pre[i].Pending?
  {
    more := es;
    if n > 0 {
      more := ThrowMany(r, init, es, n - 1);
      ThrowOne(r, Exec(r, init, more), 0, n - 1, true);
      more := One(r, init, more, Prep(0, n - 1, PrepThrew(true), Option.None));
    }
  }

  /** No staging slot is left, and all but the first batch wait for one. */
  ghost predicate OneThrown(r: Runner, s: State) {
    && Idle(r, s) && s.staging == 0 && NoneAble(r, s) && |s.core.batches| > 0
    && forall b :: 0 < b < |s.core.batches| ==> NoneFailed(s.core.batches[b])
  }

  lemma DispatchNext(r: Runner, init: State, es: seq<Event>, x: Image, wrapped: seq<Params>) returns (more: seq<Event>)
    requires |wrapped| == r.batch && r.staging.Staged? && OneThrown(r, Exec(r, init, es)) && Exec(r, init, es).inputs.free != []
    ensures OneThrown(r, Exec(r, init, more)) && |Exec(r, init, more).inputs.free| < |Exec(r, init, es).inputs.free|
  {
    var s, n := Exec(r, init, es), |Exec(r, init, es).loans|;
    more := DispatchOne(r, init, es, x, wrapped);
    var s' := Exec(r, init, more);
    assert s'.core.batches[n].pre[0].Pending?;
    SpoiledLast(r, s, s', n);
  }

  /** Dispatches requests one by one until no input slot is free. */
  lemma {:induction false} DispatchRest(r: Runner, init: State, es: seq<Event>, x: Image, wrapped: seq<Params>) returns (more: seq<Event>)
    requires |wrapped| == r.batch && r.staging.Staged? && OneThrown(r, Exec(r, init, es))
    ensures OneThrown(r, Exec(r, init, more)) && Exec(r, init, more).inputs.free == []
    decreases |Exec(r, init, es).inputs.free|
  {
    more := es;
    if Exec(r, init, es).inputs.free != [] {
      more := DispatchNext(r, init, es, x, wrapped);
      more := DispatchRest(r, init, more, x, wrapped);
    }
  }

  /** If there are no more staging slots than slots in a batch: one batch of throwing preprocesses keeps them all. No other
      preprocess and no inference throws, and yet, with as many more batches as there are input slots left, the worker then
      waits for good. */
  lemma OneBatchOfThrowsBlocks(r: Runner, init: State, x: Image, wrapped: seq<Params>) returns (es: seq<Event>)
    requires Initial(r, init) && r.staging.Staged? && init.staging <= r.batch && |wrapped| == r.batch
    ensures forall b :: 0 < b < |Exec(r, init, es).core.batches| ==> NoneFailed(Exec(r, init, es).core.batches[b])
    ensures NextBlocks(r, init, es, x, true)
  {
    es := DispatchMany(r, init, x, init.staging, wrapped);
    es := ThrowMany(r, init, es, init.staging);
    var s := Exec(r, init, es);
    assert s.core.batches[0].pre[0].Failed?;
    es := DispatchRest(r, init, es, x, wrapped);
    BlocksNext(r, init, es, x, true);
  }

  // ---------- empty scenes ----------

  ghost predicate AnsweredBelow(s: State, n: nat) {
    n <= |s.core.batches| && forall b :: 0 <= b < n ==>
      && |s.core.batches[b].results| == 1
      && s.core.batches[b].results[0].Some? && s.core.batches[b].results[0].value.Value?
  }

  lemma AnsweredStay(s: State, s': State, n: nat)
    requires AnsweredBelow(s, n) && |s.core.batches| <= |s'.core.batches| && s'.core.batches[..|s.core.batches|] == s.core.batches
    ensures AnsweredBelow(s', n)
  {
    forall b | 0 <= b < n
      ensures s'.core.batches[b] == s.core.batches[b]
    {
      assert s'.core.batches[b] == s'.core.batches[..|s.core.batches|][b];
    }
  }

  /** One more batch of one request that is answered but in which nothing is found. */
  lemma EmptyOne(r: Runner, init: State, es: seq<Event>, x: Image, stale: seq<Plane>, wrapped: seq<Params>) returns (more: seq<Event>)
    requires SlotWise(r) && r.batch > 0 && IsBuffer(r, stale, wrapped) && r.output.Pooled? && r.filtered && AllThrowless(es)
    requires var s := Exec(r, init, es);
      && Ready(r, s) && s.staging > 0 && s.filters > 0 && s.outputs.free != [] && AnsweredBelow(s, |s.core.batches|)
    ensures AllThrowless(more)
    ensures var s, s' := Exec(r, init, es), Exec(r, init, more);
      && Ready(r, s') && s'.staging == s.staging && s'.filters == s.filters - 1 && s'.outputs.free != []
      && |s'.core.batches| == |s.core.batches| + 1 && AnsweredBelow(s', |s'.core.batches|)
  {
    var s := Exec(r, init, es);
    var n, k := |s.core.batches|, s.outputs.free[0];
    assert k in s.outputs.free;
    more := FeedOne(r, init, es, x, stale, wrapped);
    var s1 := Exec(r, init, more);
    AnsweredStay(s, s1, n);
    more := AnswerOne(r, init, more, n, x, |s.core.submitted|, wrapped[0 := r.params(x)], x, false, stale);
    AnsweredNow(s1, Exec(r, init, more), n);
    assert k in Exec(r, init, more).outputs.owed;
    more := ReturnOne(r, init, more, k);
  }

  lemma AnsweredNow(s: State, s': State, n: nat)
    requires AnsweredBelow(s, n) && |s.core.batches| == n + 1 == |s'.core.batches|
    requires s'.core.batches == s.core.batches[n := s'.core.batches[n]]
    requires exists a :: s'.core.batches[n].results == [Some(Value(a))]
    ensures AnsweredBelow(s', n + 1)
  {
  }

  lemma {:induction false} EmptyMany(r: Runner, init: State, x: Image, stale: seq<Plane>, wrapped: seq<Params>, n: nat)
    returns (es: seq<Event>)
    requires SlotWise(r) && r.batch > 0 && IsBuffer(r, stale, wrapped) && r.output.Pooled? && r.filtered
    requires Initial(r, init) && n <= init.filters
    ensures AllThrowless(es)
    ensures var s := Exec(r, init, es);
      && Ready(r, s) && s.staging > 0 && s.filters == init.filters - n && s.outputs.free != []
      && |s.core.batches| == n && AnsweredBelow(s, n)
  {
    es := [];
    if n > 0 {
      es := EmptyMany(r, init, x, stale, wrapped, n - 1);
      es := EmptyOne(r, init, es, x, stale, wrapped);
    } else {
      InitialPools(r, init);
    }
  }

  /** Lets all release callbacks run. */
  lemma {:induction false} PayAll(r: Runner, init: State, es: seq<Event>) returns (more: seq<Event>)
    requires PoolsInv(r, Exec(r, init, es)) && AllThrowless(es)
    ensures AllThrowless(more)
    ensures var s, s' := Exec(r, init, es), Exec(r, init, more);
      PoolsInv(r, s') && s' == s.(outputs := s'.outputs) && s'.outputs.owed == multiset{}
    decreases |Exec(r, init, es).outputs.owed|
  {
    more := es;
    if k :| k in Exec(r, init, es).outputs.owed {
      more := ReturnOne(r, init, es, k);
      more := PayAll(r, init, more);
    }
  }

  /** Feeds requests until no output slot is free. */
  lemma {:induction false} FeedAll(r: Runner, init: State, es: seq<Event>, x: Image, stale: seq<Plane>, wrapped: seq<Params>, n: nat)
    returns (more: seq<Event>)
    requires SlotWise(r) && r.batch > 0 && IsBuffer(r, stale, wrapped) && r.output.Pooled? && AllThrowless(es)
    requires var s := Exec(r, init, es); Ready(r, s) && s.staging > 0 && s.outputs.owed == multiset{} && AnsweredBelow(s, n)
    ensures AllThrowless(more)
    ensures var s, s' := Exec(r, init, es), Exec(r, init, more);
      && Ready(r, s') && s'.filters == s.filters && s'.outputs.owed == multiset{} && s'.outputs.free == [] && AnsweredBelow(s', n)
    decreases |Exec(r, init, es).outputs.free|
  {
    more := es;
    var s := Exec(r, init, es);
    if s.outputs.free != [] {
      assert s.outputs.free[0] in s.outputs.free;
      more := FeedOne(r, init, es, x, stale, wrapped);
      AnsweredStay(s, Exec(r, init, more), n);
      more := FeedAll(r, init, more, x, stale, wrapped, n);
    }
  }

  lemma {:induction false} DispatchAll(r: Runner, init: State, es: seq<Event>, x: Image, wrapped: seq<Params>, n: nat) returns (more: seq<Event>)
    requires |wrapped| == r.batch && Idle(r, Exec(r, init, es)) && AllThrowless(es) && AnsweredBelow(Exec(r, init, es), n)
    ensures AllThrowless(more)
    ensures var s, s' := Exec(r, init, es), Exec(r, init, more);
      Idle(r, s') && s'.inputs.free == [] && s'.outputs == s.outputs && s'.filters == s.filters && AnsweredBelow(s', n)
    decreases |Exec(r, init, es).inputs.free|
  {
    more := es;
    var s := Exec(r, init, es);
    if s.inputs.free != [] {
      more := DispatchOne(r, init, es, x, wrapped);
      AnsweredStay(s, Exec(r, init, more), n);
      more := DispatchAll(r, init, more, x, wrapped, n);
    }
  }

  /** For pools of any size: when as many batches as there are filter slots have been answered in which nothing was found, a run
      in which nothing throws leads to a worker that waits for good, as long as no postprocess throws before it asks for its
      filter slot. */
  lemma EmptyScenesBlock(r: Runner, init: State, x: Image, stale: seq<Plane>, wrapped: seq<Params>) returns (es: seq<Event>)
    requires SlotWise(r) && r.batch > 0 && IsBuffer(r, stale, wrapped) && r.output.Pooled? && r.filtered && Initial(r, init)
    ensures AllThrowless(es) && AnsweredBelow(Exec(r, init, es), init.filters) && NextBlocks(r, init, es, x, false)
  {
    es := EmptyMany(r, init, x, stale, wrapped, init.filters);
    es := PayAll(r, init, es);
    es := FeedAll(r, init, es, x, stale, wrapped, init.filters);
    es := DispatchAll(r, init, es, x, wrapped, init.filters);
    BlocksNext(r, init, es, x, false);
  }
}
