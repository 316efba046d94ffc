/** The batch scheduler's runs: how its queue drains, what closing it leaves behind, and a job that the post executor refuses. */
module BatchClosing {
  import opened Runner
  import opened Arithmetic
  import opened BatchScheduler
  import opened BatchHistory

  // ---------- the queue drains ----------

  /** What a waiting worker does when its wait can return: a full queue and a timeout with data begin a round, closing with less
      than a batch makes it leave, and otherwise it goes on waiting. */
  lemma WakeDecides(r: Runner, s: State, expired: bool)
    requires r.batch > 0 && s.worker.Waiting?
    ensures Step(r, s, Wake(expired)) == s.(worker :=
      if |s.inputs| >= r.batch then Batching(false)
      else if s.closed then Exited
      else if expired && s.inputs != [] then Batching(true)
      else Waiting)
  {
  }

  lemma {:induction false} ExecJoins(r: Runner, s: State, es: seq<Event>, more: seq<Event>)
    ensures Exec(r, s, es + more) == Exec(r, Exec(r, s, es), more)
  {
    if more == [] {
      assert es + more == es;
    } else {
      ExecJoins(r, s, es, more[..|more| - 1]);
      assert (es + more)[..|es + more| - 1] == es + more[..|more| - 1];
    }
  }

  /** Wake-ups of the worker and rounds that get a buffer. */
  ghost predicate WorkerRuns(es: seq<Event>, timeouts: bool) {
    forall k :: 0 <= k < |es| ==> es[k] == Wake(timeouts) || (es[k].Round? && es[k].buffer.Some?)
  }

  lemma {:induction false} DrainsFrom(r: Runner, s: State, planes: seq<Plane>, params: seq<Params>) returns (more: seq<Event>)
    requires SlotWise(r) && r.batch > 0 && Inv(r, s) && !s.closed && IsBuffer(r, planes, params)
    ensures WorkerRuns(more, true)
    ensures var t := Exec(r, s, more); t.inputs == [] && t.submitted == s.submitted
    decreases |s.inputs|, s.worker.Waiting?
  {
    if s.inputs == [] {
      more := [];
    } else {
      var e := if s.worker.Waiting? then Wake(true) else Round(Some((planes, params)));
      if s.worker.Batching? {
        RoundTakesABatch(r, s, planes, params);
      } else {
        WakeDecides(r, s, true);
      }
      StepKeepsInv(r, s, e);
      var rest := DrainsFrom(r, Step(r, s, e), planes, params);
      assert Exec(r, s, [e]) == Step(r, Exec(r, s, []), e);
      ExecJoins(r, s, [e], rest);
      more := [e] + rest;
    }
  }

  /** Nothing is left in the queue: after any run, unless the scheduler is closed, wake-ups and rounds of the worker alone
      dispatch every request that was submitted, in order. */
  lemma QueueDrains(r: Runner, es: seq<Event>, planes: seq<Plane>, params: seq<Params>) returns (more: seq<Event>)
    requires SlotWise(r) && r.batch > 0 && IsBuffer(r, planes, params) && !Exec(r, START, es).closed
    ensures WorkerRuns(more, true)
    ensures AllInputs(Exec(r, START, es + more).batches) == Exec(r, START, es).submitted
  {
    InvHolds(r, es);
    more := DrainsFrom(r, Exec(r, START, es), planes, params);
    ExecJoins(r, START, es, more);
    HistoryInOrder(r, es + more);
  }

  lemma {:induction false} FullRoundsFrom(r: Runner, s: State, planes: seq<Plane>, params: seq<Params>) returns (more: seq<Event>)
    requires SlotWise(r) && r.batch > 0 && Inv(r, s) && IsBuffer(r, planes, params) && (s.worker.Exited? ==> |s.inputs| < r.batch)
    ensures WorkerRuns(more, false)
    ensures |Exec(r, s, more).inputs| < r.batch && Exec(r, s, more).submitted == s.submitted
    decreases |s.inputs|, s.worker.Waiting?
  {
    if |s.inputs| < r.batch {
      more := [];
    } else {
      var e := if s.worker.Waiting? then Wake(false) else Round(Some((planes, params)));
      if s.worker.Batching? {
        RoundTakesABatch(r, s, planes, params);
      } else {
        WakeDecides(r, s, false);
      }
      StepKeepsInv(r, s, e);
      var rest := FullRoundsFrom(r, Step(r, s, e), planes, params);
      assert Exec(r, s, [e]) == Step(r, Exec(r, s, []), e);
      ExecJoins(r, s, [e], rest);
      more := [e] + rest;
    }
  }

  /** Full batches do not wait for a timeout: also while closing, wake-ups on the wait's own condition and rounds alone leave
      fewer than `batch` requests, the newest, in the queue. */
  lemma FullBatchesLeave(r: Runner, es: seq<Event>, planes: seq<Plane>, params: seq<Params>) returns (more: seq<Event>)
    requires SlotWise(r) && r.batch > 0 && IsBuffer(r, planes, params) && !Exec(r, START, es).worker.Exited?
    ensures WorkerRuns(more, false)
    ensures var s, t := Exec(r, START, es), Exec(r, START, es + more);
      |t.inputs| < r.batch && AllInputs(t.batches) + t.inputs == s.submitted
  {
    InvHolds(r, es);
    more := FullRoundsFrom(r, Exec(r, START, es), planes, params);
    ExecJoins(r, START, es, more);
    HistoryInOrder(r, es + more);
  }

  // ---------- closing ----------

  ghost predicate CloseInv(r: Runner, s: State)
    requires r.batch > 0
  {
    && (s.closed ==> |s.inputs| % r.batch == s.pendingAtClose % r.batch)
    && (s.worker.Exited? ==> |s.inputs| < r.batch)
  }

  lemma DropsOneBatch(n: nat, m: nat)
    requires m > 0 && n >= m
    ensures (n - m) % m == n % m
  {
    assert n == (n / m) * m + n % m;
    var q := n / m - 1;
    assert n - m == q * m + n % m;
    ModuloOf(n - m, m, q, n % m);
  }

  lemma ModuloOf(x: int, m: nat, q: int, k: nat)
    requires m > 0 && k < m && x == q * m + k
    ensures x % m == k
  {
    ModUnique(x, m, q, k);
  }

  lemma {:induction false} CloseInvHolds(r: Runner, es: seq<Event>)
    requires SlotWise(r) && r.batch > 0 && BuffersValid(es)
    ensures CloseInv(r, Exec(r, START, es))
  {
    if es != [] {
      var s, e := Exec(r, START, es[..|es| - 1]), es[|es| - 1];
      CloseInvHolds(r, es[..|es| - 1]);
      InvHolds(r, es[..|es| - 1]);
      if e.Round? && Enabled(r, s, e) {
        RoundTakesABatch(r, s, e.buffer.value.0, e.buffer.value.1);
        if s.closed {
          DropsOneBatch(|s.inputs|, r.batch);
        }
      }
    }
  }

  /** If every tensor buffer is valid, the worker exits on close with fewer than `batch` requests left: exactly the
      remainder of the queue length at the time of closing, and these are the newest. */
  lemma ResidueAtExit(r: Runner, es: seq<Event>)
    requires SlotWise(r) && r.batch > 0 && BuffersValid(es) && Exec(r, START, es).worker.Exited?
    ensures var s := Exec(r, START, es);
      && |s.inputs| == s.pendingAtClose % r.batch
      && |s.inputs| <= |s.submitted|
      && s.inputs == s.submitted[|s.submitted| - |s.inputs|..]
      && (s.inputs == [] <==> s.pendingAtClose % r.batch == 0)
  {
    CloseInvHolds(r, es);
    InvHolds(r, es);
    var s := Exec(r, START, es);
    ModUnique(|s.inputs|, r.batch, 0, |s.inputs|);
  }

  lemma {:induction false} PendingStays(r: Runner, s: State, es: seq<Event>)
    requires s.closed
    ensures Exec(r, s, es).closed && Exec(r, s, es).pendingAtClose == s.pendingAtClose
  {
    if es != [] {
      PendingStays(r, s, es[..|es| - 1]);
    }
  }

  /** So the requests that were queued when the scheduler was closed are served but for the last (their number mod batch). */
  lemma ResidueOfRun(r: Runner, before: seq<Event>, after: seq<Event>)
    requires SlotWise(r) && r.batch > 0 && BuffersValid(before + [Close] + after)
    requires !Exec(r, START, before).closed && !Exec(r, START, before).worker.Batching?
    requires Exec(r, START, before + [Close] + after).worker.Exited?
    ensures var s, t := Exec(r, START, before), Exec(r, START, before + [Close] + after);
      && t.submitted == s.submitted && |t.inputs| == |s.inputs| % r.batch && |t.inputs| <= |s.submitted|
      && AllInputs(t.batches) == s.submitted[..|s.submitted| - |t.inputs|]
  {
    var s := Exec(r, START, before);
    ExecOneMore(r, before, Close);
    ExecJoins(r, START, before + [Close], after);
    PendingStays(r, Exec(r, START, before + [Close]), after);
    ClosedSubmitsNothing(r, Exec(r, START, before + [Close]), after);
    ResidueAtExit(r, before + [Close] + after);
    HistoryInOrder(r, before + [Close] + after);
  }

  lemma {:induction false} ClosedSubmitsNothing(r: Runner, s: State, es: seq<Event>)
    requires s.closed
    ensures Exec(r, s, es).closed && Exec(r, s, es).submitted == s.submitted
  {
    if es != [] {
      ClosedSubmitsNothing(r, s, es[..|es| - 1]);
    }
  }

  /** "Every submitted request is answered" is false: one request to a scheduler with two slots, closed at once,
      is left in the queue when the worker has exited. */
  lemma ResidueIsNotServed(r: Runner, x: Image)
    requires r.batch == 2
    ensures var s := Exec(r, START, [Submit(x), Close, Wake(false)]);
      s.worker.Exited? && s.submitted == s.inputs == [x] && s.batches == []
  {
    var es := [Submit(x), Close, Wake(false)];
    assert es[..2] == [es[0], es[1]] && es[..2][..1] == [es[0]] && [es[0]][..0] == [];
    assert Exec(r, START, [es[0]]) == Step(r, Exec(r, START, []), es[0]);
    assert Exec(r, START, es[..2]) == Step(r, Exec(r, START, [es[0]]), es[1]);
  }

  /** "Every promise of a dispatched batch is set" is false: a run in which the post executor refuses the batch of the one
      request x; its promise is never set, however the run continues. */
  lemma RefusedBatchIsNeverSet(r: Runner, x: Image, planes: seq<Plane>, params: seq<Params>) returns (es: seq<Event>)
    requires SlotWise(r) && r.batch > 0 && IsBuffer(r, planes, params)
    ensures forall more :: var s := Exec(r, START, es + more);
      |s.batches| > 0 && |s.submitted| > 0 && s.submitted[0] == x && s.batches[0].promises == [0] && s.batches[0].results == [Option.None]
  {
    var e1, e2, e3 := Submit(x), Wake(true), Round(Some((planes, params)));
    var e4, e5, e6 := Work(0, Preprocess(0, true)), Work(0, AwaitPre), Work(0, Infer(true, false));
    es := [] + [e1] + [e2] + [e3] + [e4] + [e5] + [e6];
    ExecOneMore(r, [], e1);
    ExecOneMore(r, [] + [e1], e2);
    ExecOneMore(r, [] + [e1] + [e2], e3);
    DispatchedAlone(r, x, planes, params, Exec(r, START, [] + [e1] + [e2]));
    ExecOneMore(r, [] + [e1] + [e2] + [e3], e4);
    ExecOneMore(r, [] + [e1] + [e2] + [e3] + [e4], e5);
    ExecOneMore(r, [] + [e1] + [e2] + [e3] + [e4] + [e5], e6);
    RefusedAlone(r, Exec(r, START, [] + [e1] + [e2] + [e3]));
    forall more
      ensures var s := Exec(r, START, es + more);
        |s.batches| > 0 && |s.submitted| > 0 && s.submitted[0] == x && s.batches[0].promises == [0] && s.batches[0].results == [Option.None]
    {
      LostStays(r, es, more);
    }
  }

  lemma DispatchedAlone(r: Runner, x: Image, planes: seq<Plane>, params: seq<Params>, s: State)
    requires r.batch > 0 && IsBuffer(r, planes, params) && s == Step(r, Step(r, START, Submit(x)), Wake(true))
    ensures var s' := Step(r, s, Round(Some((planes, params))));
      s'.submitted == [x] && s'.batches == [NewBatch([x], [0], planes, params)]
  {
    assert s.inputs == [x] && s.promises == [0] && s.worker.Batching?;
    assert s.inputs[..1] == [x] && s.promises[..1] == [0];
  }

  lemma RefusedAlone(r: Runner, s: State)
    requires |s.batches| == 1 && |s.batches[0].inputs| == 1 && |s.batches[0].planes| > 0 && |s.batches[0].params| > 0
    requires s.batches[0].pre == [Pending] && s.batches[0].phase == Awaiting(0)
    ensures var s' := Step(r, Step(r, Step(r, s, Work(0, Preprocess(0, true))), Work(0, AwaitPre)), Work(0, Infer(true, false)));
      && s'.submitted == s.submitted && |s'.batches| == 1 && s'.batches[0].phase.Lost?
      && s'.batches[0].promises == s.batches[0].promises && s'.batches[0].results == s.batches[0].results
  {
    var s1 := Step(r, s, Work(0, Preprocess(0, true)));
    assert s1.batches[0].pre == [Done];
    var s2 := Step(r, s1, Work(0, AwaitPre));
    assert s2.batches[0].phase == Awaiting(1);
  }

  /** The first request and the first batch, whose job was refused, as they were. */
  ghost predicate StillLost(s: State, s': State) {
    && |s.batches| > 0 && s.batches[0].phase.Lost? && |s.submitted| > 0
    && |s'.batches| > 0 && s'.batches[0].phase.Lost? && |s'.submitted| > 0 && s'.submitted[0] == s.submitted[0]
    && s'.batches[0].promises == s.batches[0].promises && s'.batches[0].results == s.batches[0].results
  }

  lemma LostStaysOne(r: Runner, s: State, s': State, e: Event)
    requires StillLost(s, s')
    ensures StillLost(s, Step(r, s', e))
  {
  }

  lemma {:induction false} LostStays(r: Runner, es: seq<Event>, more: seq<Event>)
    requires StillLost(Exec(r, START, es), Exec(r, START, es))
    ensures StillLost(Exec(r, START, es), Exec(r, START, es + more))
  {
    if more == [] {
      assert es + more == es;
    } else {
      var n := |more| - 1;
      LostStays(r, es, more[..n]);
      assert (es + more)[..|es| + n] == es + more[..n];
      LostStaysOne(r, Exec(r, START, es), Exec(r, START, es + more[..n]), more[n]);
    }
  }
}
