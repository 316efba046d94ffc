/** include/thread/ThreadPool.h: a FIFO of jobs, a fixed set of workers, and a destructor that stops and joins. */
module ThreadPool {
  import opened Arithmetic
  import opened Gathering

  datatype Worker = Waiting | Busy(job: nat) | Gone

  /** Jobs are numbered as they are accepted; `taken` and `finished` record the order of those steps. */
  datatype State = State(
    accepted: nat, queue: seq<nat>, isRunning: bool, workers: seq<Worker>, taken: seq<nat>, finished: seq<nat>)

  datatype Event = Enqueue | Stop | Wake(w: nat) | Finish(w: nat)

  predicate Enabled(s: State, e: Event) {
    match e
    case Enqueue => true
    case Stop => true
    case Wake(w) => w < |s.workers| && s.workers[w].Waiting? && (!s.isRunning || s.queue != [])
    case Finish(w) => w < |s.workers| && s.workers[w].Busy?
  }

  function Step(s: State, e: Event): State {
    if !Enabled(s, e) then s else
    match e
    case Enqueue => if !s.isRunning then s else s.(accepted := s.accepted + 1, queue := s.queue + [s.accepted])
    case Stop => s.(isRunning := false)
    case Wake(w) =>
      if s.queue != [] then
        s.(queue := s.queue[1..], taken := s.taken + [s.queue[0]], workers := s.workers[w := Busy(s.queue[0])])
      else s.(workers := s.workers[w := Gone])
    case Finish(w) => s.(finished := s.finished + [s.workers[w].job], workers := s.workers[w := Waiting])
  }

  function Exec(s: State, es: seq<Event>): State {
    if es == [] then s else Step(Exec(s, es[..|es| - 1]), es[|es| - 1])
  }

  function Start(size: nat): State {
    State(0, [], true, seq(size, _ => Waiting), [], [])
  }

  /** The job a worker is busy with. */
  function RunningOf(w: Worker): multiset<nat> {
    if w.Busy? then multiset{w.job} else multiset{}
  }

  ghost predicate SomeGone(s: State) {
    exists w :: 0 <= w < |s.workers| && s.workers[w].Gone?
  }

  ghost predicate Inv(s: State) {
    && s.taken + s.queue == Numbers(s.accepted)
    && multiset(s.taken) == Gather(RunningOf, s.workers) + multiset(s.finished)
    && (SomeGone(s) ==> !s.isRunning && s.queue == [])
  }

  lemma TakeKeepsInv(s: State, w: nat)
    requires Inv(s) && Enabled(s, Wake(w)) && s.queue != []
    ensures Inv(Step(s, Wake(w)))
  {
    var j, s' := s.queue[0], Step(s, Wake(w));
    assert s'.taken + s'.queue == s.taken + s.queue;
    GatherUpdate(RunningOf, s.workers, w, Busy(j));
    assert Gather(RunningOf, s'.workers) == Gather(RunningOf, s.workers) + multiset{j};
    assert multiset(s'.taken) == multiset(s.taken) + multiset{j};
    assert !SomeGone(s) && !SomeGone(s');
  }

  lemma FinishKeepsInv(s: State, w: nat)
    requires Inv(s) && Enabled(s, Finish(w))
    ensures Inv(Step(s, Finish(w)))
  {
    GoneStays(s, Step(s, Finish(w)));
    FinishKeepsJobs(s.workers, w, multiset(s.taken), s.finished);
  }

  lemma FinishKeepsJobs(ws: seq<Worker>, w: nat, taken: multiset<nat>, finished: seq<nat>)
    requires w < |ws| && ws[w].Busy? && taken == Gather(RunningOf, ws) + multiset(finished)
    ensures taken == Gather(RunningOf, ws[w := Waiting]) + multiset(finished + [ws[w].job])
  {
    GatherSwap(RunningOf, ws, w, Waiting);
    var running, j := Gather(RunningOf, ws[w := Waiting]), ws[w].job;
    assert multiset(finished + [j]) == multiset(finished) + multiset{j};
    assert (running + multiset{j}) + multiset(finished) == running + (multiset(finished) + multiset{j});
  }

  lemma GoneStays(s: State, s': State)
    requires |s'.workers| == |s.workers| && forall u :: 0 <= u < |s.workers| && s'.workers[u].Gone? ==> s.workers[u].Gone?
    ensures SomeGone(s') ==> SomeGone(s)
  {
  }

  lemma ExitKeepsInv(s: State, w: nat)
    requires Inv(s) && Enabled(s, Wake(w)) && s.queue == []
    ensures Inv(Step(s, Wake(w)))
  {
    GatherSwap(RunningOf, s.workers, w, Gone);
  }

  lemma EnqueueKeepsInv(s: State)
    requires Inv(s)
    ensures Inv(Step(s, Enqueue))
  {
    assert s.taken + (s.queue + [s.accepted]) == (s.taken + s.queue) + [s.accepted];
    assert SomeGone(Step(s, Enqueue)) == SomeGone(s);
  }

  lemma StepKeepsInv(s: State, e: Event)
    requires Inv(s)
    ensures Inv(Step(s, e)) && |Step(s, e).workers| == |s.workers|
  {
    if Enabled(s, e) {
      match e
      case Enqueue => EnqueueKeepsInv(s);
      case Stop => assert SomeGone(Step(s, e)) == SomeGone(s);
      case Wake(w) => if s.queue != [] { TakeKeepsInv(s, w); } else { ExitKeepsInv(s, w); }
      case Finish(w) => FinishKeepsInv(s, w);
    }
  }

  lemma {:induction false} InvHolds(size: nat, es: seq<Event>)
    ensures Inv(Exec(Start(size), es)) && |Exec(Start(size), es).workers| == size
  {
    if es == [] {
      StartInv(size);
    } else {
      InvHolds(size, es[..|es| - 1]);
      StepKeepsInv(Exec(Start(size), es[..|es| - 1]), es[|es| - 1]);
    }
  }

  lemma StartInv(size: nat)
    ensures Inv(Start(size))
  {
    GatherNothing(RunningOf, Start(size).workers);
  }

  /** In every run jobs are taken in the order they were accepted, none twice; an accepted job is queued, running or
      finished, and only one of these; a worker leaves only after the stop, with the queue empty. */
  lemma JobsConserved(size: nat, es: seq<Event>)
    ensures var s := Exec(Start(size), es);
      && s.taken + s.queue == Numbers(s.accepted)
      && multiset(Numbers(s.accepted)) == multiset(s.queue) + Gather(RunningOf, s.workers) + multiset(s.finished)
      && (SomeGone(s) ==> !s.isRunning && s.queue == [])
  {
    InvHolds(size, es);
    var s := Exec(Start(size), es);
    assert multiset(s.taken + s.queue) == multiset(s.taken) + multiset(s.queue);
  }

  /** Nothing is accepted after the stop. */
  lemma {:induction false} NothingAfterStop(s: State, es: seq<Event>)
    requires !s.isRunning
    ensures !Exec(s, es).isRunning && Exec(s, es).accepted == s.accepted
  {
    if es != [] {
      NothingAfterStop(s, es[..|es| - 1]);
    }
  }

  ghost predicate Joined(s: State) {
    forall w :: 0 <= w < |s.workers| ==> s.workers[w].Gone?
  }

  /** When the destructor's join has completed, every accepted job has run exactly once, unless the pool was built without
      workers and something was enqueued. */
  lemma JoinRanEverythingIff(size: nat, es: seq<Event>)
    requires Joined(Exec(Start(size), es))
    ensures var s := Exec(Start(size), es);
      multiset(s.finished) == multiset(Numbers(s.accepted)) <==> size > 0 || s.accepted == 0
  {
    JobsConserved(size, es);
    InvHolds(size, es);
    var s := Exec(Start(size), es);
    GatherNothing(RunningOf, s.workers);
    if size > 0 {
      assert s.workers[0].Gone?;
    } else {
      NothingRunsWithoutWorkers(es);
      assert |multiset(Numbers(s.accepted))| == s.accepted && |multiset(s.finished)| == 0;
    }
  }

  lemma {:induction false} NothingRunsWithoutWorkers(es: seq<Event>)
    ensures Exec(Start(0), es).finished == [] && Exec(Start(0), es).workers == []
  {
    if es != [] {
      NothingRunsWithoutWorkers(es[..|es| - 1]);
    }
  }

  /** Work left before the join can complete. */
  function Measure(s: State): nat {
    2 * |s.queue| + WorkerMeasure(s.workers)
  }

  function WorkerRank(w: Worker): nat {
    match w case Waiting => 1 case Busy(_) => 2 case Gone => 0
  }

  function WorkerMeasure(ws: seq<Worker>): nat {
    if ws == [] then 0 else WorkerMeasure(ws[..|ws| - 1]) + WorkerRank(ws[|ws| - 1])
  }

  lemma {:induction false} WorkerMeasureUpdate(ws: seq<Worker>, w: nat, x: Worker)
    requires w < |ws|
    ensures WorkerMeasure(ws[w := x]) + WorkerRank(ws[w]) == WorkerMeasure(ws) + WorkerRank(x)
  {
    var n := |ws| - 1;
    if w < n {
      WorkerMeasureUpdate(ws[..n], w, x);
      assert ws[w := x][..n] == ws[..n][w := x];
    } else {
      assert ws[w := x][..n] == ws[..n];
    }
  }

  /** After the stop, until the join completes, some worker can move, and every move of a worker brings the join nearer. */
  lemma DrainProgress(s: State)
    requires !s.isRunning
    ensures !Joined(s) ==> exists e: Event :: (e.Wake? || e.Finish?) && Enabled(s, e)
    ensures forall e: Event :: (e.Wake? || e.Finish?) && Enabled(s, e) ==> Measure(Step(s, e)) < Measure(s)
  {
    if !Joined(s) {
      var w :| 0 <= w < |s.workers| && !s.workers[w].Gone?;
      assert Enabled(s, if s.workers[w].Waiting? then Wake(w) else Finish(w));
    }
    forall e: Event | (e.Wake? || e.Finish?) && Enabled(s, e)
      ensures Measure(Step(s, e)) < Measure(s)
    {
      WorkerMeasureUpdate(s.workers, e.w, Step(s, e).workers[e.w]);
    }
  }

  // ---------- a pool that is served ----------

  /** A waiting worker's wait returns exactly when there is a job or the pool has been stopped, and then it takes the oldest
      job or, without one, leaves. */
  lemma WaitReturnsIff(s: State, w: nat)
    requires w < |s.workers| && s.workers[w].Waiting?
    ensures Step(s, Wake(w)) != s <==> s.queue != [] || !s.isRunning
    ensures s.queue != [] ==> Step(s, Wake(w)).workers == s.workers[w := Busy(s.queue[0])] && [s.queue[0]] + Step(s, Wake(w)).queue == s.queue
    ensures s.queue == [] && !s.isRunning ==> Step(s, Wake(w)).workers == s.workers[w := Gone]
  {
    assert s.workers[w := Gone][w].Gone?;
  }

  lemma {:induction false} ExecJoins(s: State, es: seq<Event>, more: seq<Event>)
    ensures Exec(s, es + more) == Exec(Exec(s, es), more)
  {
    if more == [] {
      assert es + more == es;
    } else {
      ExecJoins(s, es, more[..|more| - 1]);
      assert (es + more)[..|es + more| - 1] == es + more[..|more| - 1];
    }
  }

  ghost predicate WorkerSteps(es: seq<Event>) {
    forall k :: 0 <= k < |es| ==> es[k].Wake? || es[k].Finish?
  }

  /** Finishing what runs and waking a worker for what is queued ends with every job finished. */
  lemma {:induction false} ServedFrom(s: State) returns (more: seq<Event>)
    requires Inv(s) && s.workers != []
    ensures WorkerSteps(more)
    ensures var t := Exec(s, more);
      t.queue == [] && t.accepted == s.accepted && multiset(t.finished) == multiset(Numbers(s.accepted))
    decreases Measure(s)
  {
    if w: nat :| w < |s.workers| && s.workers[w].Busy? {
      WorkerMeasureUpdate(s.workers, w, Waiting);
      more := ServedAfter(s, Finish(w));
    } else if s.queue != [] {
      assert s.workers[0].Waiting?;
      WorkerMeasureUpdate(s.workers, 0, Busy(s.queue[0]));
      more := ServedAfter(s, Wake(0));
    } else {
      GatherNothing(RunningOf, s.workers);
      assert s.taken + [] == s.taken;
      more := [];
    }
  }

  lemma {:induction false} ServedAfter(s: State, e: Event) returns (more: seq<Event>)
    requires Inv(s) && s.workers != [] && (e.Wake? || e.Finish?) && Measure(Step(s, e)) < Measure(s)
    ensures WorkerSteps(more)
    ensures var t := Exec(s, more);
      t.queue == [] && t.accepted == s.accepted && multiset(t.finished) == multiset(Numbers(s.accepted))
    decreases Measure(s), 0
  {
    StepKeepsInv(s, e);
    var rest := ServedFrom(Step(s, e));
    more := [e] + rest;
    assert Exec(s, [e]) == Step(Exec(s, []), e);
    ExecJoins(s, [e], rest);
  }

  /** A pool with a worker never leaves a job behind: after any run, stopped or not, steps of the workers alone can finish
      every job that was accepted, each once. */
  lemma EveryJobCanRun(size: nat, es: seq<Event>) returns (more: seq<Event>)
    requires size > 0
    ensures WorkerSteps(more)
    ensures var s, t := Exec(Start(size), es), Exec(Start(size), es + more);
      t.queue == [] && t.accepted == s.accepted && multiset(t.finished) == multiset(Numbers(s.accepted))
  {
    InvHolds(size, es);
    more := ServedFrom(Exec(Start(size), es));
    ExecJoins(Start(size), es, more);
  }

  /** The pool's mutable state; each method is a locked section or a worker's step. */
  class ThreadPool {
    const size: nat
    var que: seq<nat>
    var isRunning: bool
    var jobsMade: nat
    var workers: seq<Worker>
    ghost var log: seq<Event>

    ghost function Current(): State
      reads this
    {
      Exec(Start(size), log)
    }

    ghost predicate Valid()
      reads this
    {
      && Current().queue == que && Current().isRunning == isRunning
      && Current().accepted == jobsMade && Current().workers == workers
    }

    constructor (poolSize: nat)
      ensures Valid() && size == poolSize && log == []
    {
      size, que, isRunning, jobsMade, log := poolSize, [], true, 0, [];
      workers := seq(poolSize, _ => Waiting);
    }

    lemma Logged(e: Event)
      ensures Exec(Start(size), log + [e]) == Step(Current(), e)
    {
      assert (log + [e])[..|log|] == log;
    }

    method Enqueue() returns (job: nat, thrown: bool)
      requires Valid()
      modifies this
      ensures Valid() && log == old(log) + [Event.Enqueue]
      ensures thrown == !old(isRunning) && job == old(jobsMade)
      ensures que == if thrown then old(que) else old(que) + [job]
    {
      Logged(Event.Enqueue);
      job, thrown := jobsMade, !isRunning;
      if isRunning {
        que, jobsMade := que + [job], jobsMade + 1;
      }
      log := log + [Event.Enqueue];
    }

    /** One pass of a worker's loop from the return of the wait on, up to calling the job. */
    method WorkerWake(w: nat) returns (exit: bool)
      requires Valid() && w < |workers| && workers[w].Waiting? && (que != [] || !isRunning)
      modifies this
      ensures Valid() && log == old(log) + [Wake(w)]
      ensures exit == (old(que) == [])
      ensures exit ==> !isRunning && workers == old(workers)[w := Gone] && que == []
      ensures !exit ==> workers == old(workers)[w := Busy(old(que)[0])] && que == old(que)[1..]
    {
      Logged(Wake(w));
      exit := que == [];
      if exit {
        workers := workers[w := Gone];
      } else {
        workers, que := workers[w := Busy(que[0])], que[1..];
      }
      log := log + [Wake(w)];
    }

    method WorkerFinish(w: nat)
      requires Valid() && w < |workers| && workers[w].Busy?
      modifies this
      ensures Valid() && log == old(log) + [Finish(w)] && que == old(que) && isRunning == old(isRunning)
      ensures workers == old(workers)[w := Waiting]
    {
      Logged(Finish(w));
      workers := workers[w := Waiting];
      log := log + [Finish(w)];
    }

    /** The destructor: stop, then let the workers run, here one step of the first live one at a time, until all are gone. */
    method Destroy()
      requires Valid()
      modifies this
      ensures Valid() && !isRunning && Joined(Current())
      ensures size > 0 ==> multiset(Current().finished) == multiset(Numbers(jobsMade))
    {
      Logged(Stop);
      isRunning := false;
      log := log + [Stop];
      var w := 0;
      while w < |workers|
        invariant Valid() && !isRunning && w <= |workers|
        invariant forall k :: 0 <= k < w ==> workers[k].Gone?
        decreases |workers| - w, Measure(Current())
      {
        DrainProgress(Current());
        if workers[w].Waiting? {
          var exit := WorkerWake(w);
          if exit {
            w := w + 1;
          }
        } else if workers[w].Busy? {
          WorkerFinish(w);
        } else {
          w := w + 1;
        }
      }
      JoinRanEverythingIff(size, log);
    }
  }
}
