/** The batch scheduler's runs: which request sits where, that a value is the sequential scheduler's answer, and that tasks wait for
    nothing but what their code waits for. */
module BatchHistory {
  import opened Runner
  import opened Arithmetic
  import opened BatchScheduler

  /** In every run the batches in dispatch order, followed by the queue, are the submitted requests in order, each
      still paired with its own promise. */
  lemma HistoryInOrder(r: Runner, es: seq<Event>)
    requires SlotWise(r) && r.batch > 0
    ensures var s := Exec(r, START, es);
      && AllInputs(s.batches) + s.inputs == s.submitted
      && AllPromises(s.batches) + s.promises == Numbers(|s.submitted|)
      && forall b :: 0 <= b < |s.batches| ==> 1 <= |s.batches[b].inputs| == |s.batches[b].promises| <= r.batch
  {
    InvHolds(r, es);
  }

  /** Where the requests of batch b begin in the submission order. */
  function Offset(bs: seq<Batch>, b: nat): nat
    requires b <= |bs|
  {
    |AllPromises(bs[..b])|
  }

  ghost predicate Paired(bs: seq<Batch>) {
    forall k :: 0 <= k < |bs| ==> |bs[k].inputs| == |bs[k].promises|
  }

  lemma {:induction false} PairedLengths(bs: seq<Batch>)
    requires Paired(bs)
    ensures |AllInputs(bs)| == |AllPromises(bs)|
  {
    if bs != [] {
      PairedLengths(bs[..|bs| - 1]);
    }
  }

  /** Batch b's promises are the slice of the history that begins at its offset. */
  lemma {:induction false} PromiseSlice(bs: seq<Batch>, b: nat)
    requires b < |bs|
    ensures var o, n := Offset(bs, b), |bs[b].promises|;
      Offset(bs, b + 1) == o + n <= |AllPromises(bs)| && AllPromises(bs)[o..o + n] == bs[b].promises
  {
    var last := |bs| - 1;
    if b < last {
      PromiseSlice(bs[..last], b);
      assert bs[..last][..b] == bs[..b] && bs[..last][..b + 1] == bs[..b + 1];
      var o, n := Offset(bs, b), |bs[b].promises|;
      SliceOfPrefix(AllPromises(bs[..last]), bs[last].promises, o, o + n);
    } else {
      assert bs[..b + 1] == bs;
    }
  }

  lemma {:induction false} InputSlice(bs: seq<Batch>, b: nat)
    requires b < |bs| && Paired(bs)
    ensures var o, n := Offset(bs, b), |bs[b].inputs|;
      o + n <= |AllInputs(bs)| && AllInputs(bs)[o..o + n] == bs[b].inputs
  {
    var last := |bs| - 1;
    var o, n := Offset(bs, b), |bs[b].inputs|;
    PairedLengths(bs[..b]);
    if b < last {
      InputSlice(bs[..last], b);
      assert bs[..last][..b] == bs[..b];
      SliceOfPrefix(AllInputs(bs[..last]), bs[last].inputs, o, o + n);
    }
  }

  lemma SliceOfPrefix<T>(a: seq<T>, b: seq<T>, i: nat, j: nat)
    requires i <= j <= |a|
    ensures (a + b)[i..j] == a[i..j]
  {
  }

  lemma SlotInHistory(s: State, b: nat, i: nat)
    requires Paired(s.batches) && b < |s.batches| && i < |s.batches[b].promises|
    requires AllInputs(s.batches) + s.inputs == s.submitted && AllPromises(s.batches) + s.promises == Numbers(|s.submitted|)
    ensures s.batches[b].promises[i] == Offset(s.batches, b) + i < |s.submitted|
    ensures s.batches[b].inputs[i] == s.submitted[s.batches[b].promises[i]]
  {
    PromiseSlice(s.batches, b);
    InputSlice(s.batches, b);
    var o, n := Offset(s.batches, b), |s.batches[b].promises|;
    var ps, xs := AllPromises(s.batches), AllInputs(s.batches);
    assert ps[o..o + n][i] == ps[o + i] == (ps + s.promises)[o + i];
    assert xs[o..o + n][i] == xs[o + i] == (xs + s.inputs)[o + i];
  }

  /** The i-th request of a batch is the one submitted as number Offset + i, and it kept its promise. */
  lemma RequestOfSlot(r: Runner, es: seq<Event>, b: nat, i: nat)
    requires SlotWise(r) && r.batch > 0
    requires var s := Exec(r, START, es); b < |s.batches| && i < |s.batches[b].promises|
    ensures var s := Exec(r, START, es);
      && i < |s.batches[b].inputs|
      && s.batches[b].promises[i] == Offset(s.batches, b) + i < |s.submitted|
      && s.batches[b].inputs[i] == s.submitted[s.batches[b].promises[i]]
  {
    InvHolds(r, es);
    InvPaired(r, Exec(r, START, es));
    SlotInHistory(Exec(r, START, es), b, i);
  }

  lemma InvPaired(r: Runner, s: State)
    requires Inv(r, s)
    ensures Paired(s.batches)
  {
    forall k | 0 <= k < |s.batches|
      ensures |s.batches[k].inputs| == |s.batches[k].promises|
    {
      assert BatchInv(r, s.batches[k]);
    }
  }

  /** A promise sits in one slot of one batch only, so setting it per batch is setting it once. */
  lemma PromiseInOnePlace(r: Runner, es: seq<Event>, b: nat, i: nat, c: nat, j: nat)
    requires SlotWise(r) && r.batch > 0
    requires var s := Exec(r, START, es);
      && b < |s.batches| && i < |s.batches[b].promises| && c < |s.batches| && j < |s.batches[c].promises|
    ensures var s := Exec(r, START, es); s.batches[b].promises[i] == s.batches[c].promises[j] ==> b == c && i == j
  {
    RequestOfSlot(r, es, b, i);
    RequestOfSlot(r, es, c, j);
    var bs := Exec(r, START, es).batches;
    if b < c {
      OffsetsGrow(bs, b, c);
    } else if c < b {
      OffsetsGrow(bs, c, b);
    }
  }

  lemma {:induction false} OffsetsGrow(bs: seq<Batch>, b: nat, c: nat)
    requires b < c < |bs|
    ensures Offset(bs, b) + |bs[b].promises| <= Offset(bs, c)
  {
    PromiseSlice(bs, c - 1);
    if b < c - 1 {
      OffsetsGrow(bs, b, c - 1);
    }
  }

  /** The main result: in every run, whatever the batch split, the order of the tasks and the stale data in the
      buffers, a request answered with a value gets the value the sequential scheduler computes for it alone. */
  lemma BatchingRefinesSequential(r: Runner, es: seq<Event>, b: nat, i: nat, stale: seq<Plane>, staleParams: seq<Params>)
    requires SlotWise(r) && r.batch > 0 && IsBuffer(r, stale, staleParams)
    requires var s := Exec(r, START, es);
      b < |s.batches| && i < |s.batches[b].results| && s.batches[b].results[i].Some? && s.batches[b].results[i].value.Value?
    ensures var s := Exec(r, START, es);
      && i < |s.batches[b].promises| && s.batches[b].promises[i] < |s.submitted|
      && s.batches[b].results[i].value.answer == Alone(r, stale, staleParams, s.submitted[s.batches[b].promises[i]])
  {
    InvHolds(r, es);
    var batch := Exec(r, START, es).batches[b];
    assert BatchInv(r, batch);
    RequestOfSlot(r, es, b, i);
    assert batch.pre[i].Done?;
    SlotAnswersAlone(r, batch.planes, batch.params, i, batch.inputs[i], stale, staleParams);
  }

  /** No run reads outputs[i] out of range, and a batch that has not ended can always move on. */
  lemma BatchesNeverStick(r: Runner, es: seq<Event>, b: nat)
    requires SlotWise(r) && r.batch > 0 && b < |Exec(r, START, es).batches|
    ensures var batch := Exec(r, START, es).batches[b];
      && (batch.phase.Delivering? && batch.phase.next < |batch.results| ==> batch.phase.next < |batch.phase.answers|)
      && (!Ended(batch) ==> exists t :: TaskEnabled(batch, t))
      && (forall t :: TaskEnabled(batch, t) ==> Measure(TaskStep(r, batch, t)) < Measure(batch))
      && (Ended(batch) ==> (AllSet(batch, |batch.results|) <==> !batch.phase.Lost?))
  {
    InvHolds(r, es);
    var batch := Exec(r, START, es).batches[b];
    BatchProgress(r, batch);
    if Ended(batch) {
      EndedBatchOutcomes(r, batch);
    }
  }

  /** Batch b after one of its tasks; the same batch if the task cannot run. */
  function After(r: Runner, s: State, b: nat, t: Task): Batch
    requires b < |s.batches|
  {
    Step(r, s, Work(b, t)).batches[b]
  }

  lemma AfterTask(r: Runner, s: State, b: nat, t: Task)
    requires b < |s.batches|
    ensures After(r, s, b, t) == if TaskEnabled(s.batches[b], t) then TaskStep(r, s.batches[b], t) else s.batches[b]
  {
  }

  /** In every run a batch's preprocess tasks wait for nothing: not for each other, nor for the other batches or the worker. */
  lemma PreprocessesRunFreely(r: Runner, es: seq<Event>, b: nat, i: nat, ok: bool)
    requires SlotWise(r) && r.batch > 0 && b < |Exec(r, START, es).batches|
    ensures var s := Exec(r, START, es);
      i < |s.batches[b].pre| && s.batches[b].pre[i].Pending? ==>
        After(r, s, b, Preprocess(i, ok)).pre == s.batches[b].pre[i := if ok then Done else Failed]
  {
    InvHolds(r, es);
    assert BatchInv(r, Exec(r, START, es).batches[b]);
    AfterTask(r, Exec(r, START, es), b, Preprocess(i, ok));
  }

  /** The other tasks wait only for what their code waits for: the infer task for the next future, then each step for the one
      before it. */
  lemma TasksRunFreely(r: Runner, es: seq<Event>, b: nat, ok: bool, accepted: bool)
    requires SlotWise(r) && r.batch > 0 && b < |Exec(r, START, es).batches|
    ensures var s := Exec(r, START, es); var batch := s.batches[b];
      match batch.phase
      case Awaiting(n) =>
        if n < |batch.pre| then
          After(r, s, b, AwaitPre).phase ==
          if batch.pre[n].Pending? then Awaiting(n) else if batch.pre[n].Done? then Awaiting(n + 1) else Failing(0)
        else
          After(r, s, b, Infer(ok, accepted)).phase ==
          if !ok then Failing(0) else if accepted then PostQueued(r.infer(batch.planes)) else Lost
      case PostQueued(f) =>
        After(r, s, b, Post(ok)).phase == if ok then Delivering(r.post(f, batch.params), 0) else Failing(0)
      case Delivering(a, n) =>
        n < |batch.results| ==>
          && n < |a|
          && After(r, s, b, SetValue(ok)).results == if ok then batch.results[n := Some(Value(a[n]))] else batch.results
      case Failing(n) =>
        n < |batch.results| ==>
          After(r, s, b, SetException).results == if batch.results[n].Some? then batch.results else batch.results[n := Some(Exception)]
      case Lost => true
  {
    InvHolds(r, es);
    var s := Exec(r, START, es);
    assert BatchInv(r, s.batches[b]);
    AfterTask(r, s, b, AwaitPre);
    AfterTask(r, s, b, Infer(ok, accepted));
    AfterTask(r, s, b, Post(ok));
    AfterTask(r, s, b, SetValue(ok));
    AfterTask(r, s, b, SetException);
  }
}
