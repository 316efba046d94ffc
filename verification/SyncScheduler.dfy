/** include/scheduler/SyncScheduler.h: one worker runs the submitted jobs whole and in order. */
module SyncScheduler {
  import opened Runner

  datatype Worker = Idle | Running(id: nat) | Exited

  /** A future is named by its submission index; `outcomes[p]` is what future p was given. */
  datatype State = State(
    submitted: seq<Image>, tasks: seq<nat>, outcomes: seq<Option<Outcome>>, closed: bool, worker: Worker)

  datatype Event =
    | Submit(x: Image)
    | Shutdown
    | Take
    | Finish(planes: seq<Plane>, params: seq<Params>, ok: bool)  // over the buffer preprocess obtained; a throw goes to the future

  const START := State([], [], [], false, Idle)

  predicate Enabled(r: Runner, s: State, e: Event) {
    match e
    case Submit(_) => true
    case Shutdown => true
    case Take => s.worker.Idle? && (s.tasks != [] || s.closed)
    case Finish(planes, params, ok) =>
      && s.worker.Running? && s.worker.id < |s.submitted| && s.worker.id < |s.outcomes|
      && r.batch > 0 && IsBuffer(r, planes, params)
      && (ok ==> Outputs(r, planes, params, s.submitted[s.worker.id]) != [])
  }

  function Step(r: Runner, s: State, e: Event): State {
    if !Enabled(r, s, e) then s else
    match e
    case Submit(x) =>
      if s.closed then s  // throws runtime_error
      else s.(submitted := s.submitted + [x], tasks := s.tasks + [|s.submitted|], outcomes := s.outcomes + [Option.None])
    case Shutdown => s.(closed := true)
    case Take => if s.tasks != [] then s.(tasks := s.tasks[1..], worker := Running(s.tasks[0])) else s.(worker := Exited)
    case Finish(planes, params, ok) =>
      var id := s.worker.id;
      var outcome := if ok then Value(Outputs(r, planes, params, s.submitted[id])[0]) else Exception;
      s.(outcomes := s.outcomes[id := Some(outcome)], worker := Idle)
  }

  function Exec(r: Runner, s: State, es: seq<Event>): State {
    if es == [] then s else Step(r, Exec(r, s, es[..|es| - 1]), es[|es| - 1])
  }

  /** How many requests have been served. */
  function Served(s: State): int {
    |s.submitted| - |s.tasks| - if s.worker.Running? then 1 else 0
  }

  ghost predicate Inv(r: Runner, s: State, stale: seq<Plane>, staleParams: seq<Params>)
    requires SlotWise(r) && r.batch > 0 && IsBuffer(r, stale, staleParams)
  {
    && |s.outcomes| == |s.submitted| && 0 <= Served(s)
    && (forall k :: 0 <= k < |s.tasks| ==> s.tasks[k] == |s.submitted| - |s.tasks| + k)
    && (s.worker.Running? ==> s.worker.id == Served(s))
    && (s.worker.Exited? ==> s.closed && s.tasks == [])
    && (forall p :: 0 <= p < |s.outcomes| ==> (s.outcomes[p].Some? <==> p < Served(s)))
    && (forall p :: 0 <= p < |s.outcomes| && s.outcomes[p].Some? && s.outcomes[p].value.Value? ==>
          s.outcomes[p].value.answer == Alone(r, stale, staleParams, s.submitted[p]))
  }

  lemma StepKeepsInv(r: Runner, s: State, e: Event, stale: seq<Plane>, staleParams: seq<Params>)
    requires SlotWise(r) && r.batch > 0 && IsBuffer(r, stale, staleParams) && Inv(r, s, stale, staleParams)
    ensures Inv(r, Step(r, s, e), stale, staleParams)
  {
    if e.Finish? && Enabled(r, s, e) && e.ok {
      var x := s.submitted[s.worker.id];
      SlotAnswersAlone(r, e.planes[0 := r.pixels(x)], e.params[0 := r.params(x)], 0, x, stale, staleParams);
    }
  }

  lemma {:induction false} InvHolds(r: Runner, es: seq<Event>, stale: seq<Plane>, staleParams: seq<Params>)
    requires SlotWise(r) && r.batch > 0 && IsBuffer(r, stale, staleParams)
    ensures Inv(r, Exec(r, START, es), stale, staleParams)
  {
    if es != [] {
      InvHolds(r, es[..|es| - 1], stale, staleParams);
      StepKeepsInv(r, Exec(r, START, es[..|es| - 1]), es[|es| - 1], stale, staleParams);
    }
  }

  /** Requests are served one at a time in submission order; a value is the answer to the request alone, whatever
      buffers were used; and when the worker has exited every accepted request has been served. */
  lemma ServesInOrder(r: Runner, es: seq<Event>, stale: seq<Plane>, staleParams: seq<Params>)
    requires SlotWise(r) && r.batch > 0 && IsBuffer(r, stale, staleParams)
    ensures var s := Exec(r, START, es);
      && |s.outcomes| == |s.submitted|
      && 0 <= Served(s) <= |s.outcomes|
      && (forall p :: 0 <= p < |s.outcomes| ==> (s.outcomes[p].Some? <==> p < Served(s)))
      && (forall p :: 0 <= p < |s.outcomes| && s.outcomes[p].Some? && s.outcomes[p].value.Value? ==>
            s.outcomes[p].value.answer == Alone(r, stale, staleParams, s.submitted[p]))
      && (s.worker.Exited? ==> forall p :: 0 <= p < |s.outcomes| ==> s.outcomes[p].Some?)
  {
    InvHolds(r, es, stale, staleParams);
  }

  lemma {:induction false} ExecJoins(r: Runner, s: State, es: seq<Event>, more: seq<Event>)
    ensures Exec(r, s, es + more) == Exec(r, Exec(r, s, es), more)
  {
    if more == [] {
      assert es + more == es;
    } else {
      ExecJoins(r, s, es, more[..|more| - 1]);
      assert (es + more)[..|es + more| - 1] == es + more[..|more| - 1];
    }
  }

  /** Steps of the worker alone, its jobs running over a given buffer without an exception. */
  ghost predicate WorkerSteps(es: seq<Event>, planes: seq<Plane>, params: seq<Params>) {
    forall k :: 0 <= k < |es| ==> es[k] == Take || es[k] == Finish(planes, params, true)
  }

  /** `t` has a value for every request that `s` had not served yet, and leaves the others as they were. */
  ghost predicate ServesRest(s: State, t: State) {
    && t.submitted == s.submitted && |t.outcomes| == |s.outcomes| == |s.submitted|
    && forall p :: 0 <= p < |s.outcomes| ==>
         if s.outcomes[p].None? then t.outcomes[p].Some? && t.outcomes[p].value.Value? else t.outcomes[p] == s.outcomes[p]
  }

  lemma {:induction false} ServedFrom(r: Runner, s: State, planes: seq<Plane>, params: seq<Params>) returns (more: seq<Event>)
    requires SlotWise(r) && r.batch > 0 && IsBuffer(r, planes, params) && Inv(r, s, planes, params)
    ensures WorkerSteps(more, planes, params) && ServesRest(s, Exec(r, s, more))
    decreases |s.tasks|, s.worker.Running?
  {
    if s.tasks == [] && !s.worker.Running? {
      more := [];
    } else {
      var e := if s.worker.Running? then Finish(planes, params, true) else Take;
      StepKeepsInv(r, s, e, planes, params);
      var rest := ServedFrom(r, Step(r, s, e), planes, params);
      assert Exec(r, s, [e]) == Step(r, Exec(r, s, []), e);
      ExecJoins(r, s, [e], rest);
      more := [e] + rest;
    }
  }

  /** Nothing accepted is ever out of reach: after any run, closed or not, the worker's steps alone can give every request that
      is still waiting its value. */
  lemma EveryRequestCanBeServed(r: Runner, es: seq<Event>, planes: seq<Plane>, params: seq<Params>) returns (more: seq<Event>)
    requires SlotWise(r) && r.batch > 0 && IsBuffer(r, planes, params)
    ensures WorkerSteps(more, planes, params) && ServesRest(Exec(r, START, es), Exec(r, START, es + more))
  {
    InvHolds(r, es, planes, params);
    more := ServedFrom(r, Exec(r, START, es), planes, params);
    ExecJoins(r, START, es, more);
  }

  class SyncScheduler {
    const runner: Runner
    var tasks: seq<(nat, Image)>
    var isClose: bool
    var promisesMade: nat
    ghost var log: seq<Event>

    ghost function Current(): State
      reads this
    {
      Exec(runner, START, log)
    }

    ghost predicate Valid()
      reads this
    {
      && SlotWise(runner) && runner.batch > 0 && Current().closed == isClose && |Current().submitted| == promisesMade
      && |tasks| == |Current().tasks|
      && forall k :: 0 <= k < |tasks| ==>
           tasks[k].0 == Current().tasks[k] < promisesMade && tasks[k].1 == Current().submitted[tasks[k].0]
    }

    constructor (r: Runner)
      requires SlotWise(r) && r.batch > 0
      ensures Valid() && runner == r && log == []
    {
      runner := r;
      tasks, isClose, promisesMade, log := [], false, 0, [];
    }

    method Submit(x: Image) returns (accepted: bool)
      requires Valid()
      modifies this
      ensures Valid() && log == old(log) + [Event.Submit(x)] && isClose == old(isClose)
      ensures accepted == !old(isClose)
      ensures tasks == if accepted then old(tasks) + [(old(promisesMade), x)] else old(tasks)
    {
      ExecOneMore(runner, log, Event.Submit(x));
      accepted := !isClose;
      if accepted {
        tasks, promisesMade := tasks + [(promisesMade, x)], promisesMade + 1;
      }
      log := log + [Event.Submit(x)];
    }

    method Shutdown()
      requires Valid()
      modifies this
      ensures Valid() && log == old(log) + [Event.Shutdown] && isClose && tasks == old(tasks)
    {
      ExecOneMore(runner, log, Event.Shutdown);
      isClose := true;
      log := log + [Event.Shutdown];
    }

    /** One turn of the worker's loop: take the oldest job and run it over the given buffer, or leave. */
    method RunTurn(planes: seq<Plane>, params: seq<Params>, ok: bool) returns (exit: bool, outcome: Option<Outcome>)
      requires Valid() && Current().worker.Idle? && (tasks != [] || isClose) && IsBuffer(runner, planes, params)
      modifies this
      ensures Valid() && isClose == old(isClose) && exit == (old(tasks) == [])
      ensures exit ==> isClose && outcome.None? && log == old(log) + [Take] && Current().worker.Exited?
      ensures !exit ==> log == old(log) + [Take] + [Finish(planes, params, ok)] && Current().worker.Idle?
      ensures !exit ==> tasks == old(tasks)[1..]
      ensures !exit ==> outcome == Some(if ok then Value(Alone(runner, planes, params, old(tasks)[0].1)) else Exception)
      ensures !exit ==> old(tasks)[0].0 < |Current().outcomes| && Current().outcomes[old(tasks)[0].0] == outcome
    {
      ExecOneMore(runner, log, Take);
      InvHolds(runner, log, planes, params);
      log := log + [Take];
      exit := tasks == [];
      outcome := Option.None;
      if !exit {
        var task := tasks[0];
        tasks := tasks[1..];
        ExecOneMore(runner, log, Finish(planes, params, ok));
        outcome := Some(if ok then Value(Outputs(runner, planes, params, task.1)[0]) else Exception);
        log := log + [Finish(planes, params, ok)];
      }
    }
  }

  lemma ExecOneMore(r: Runner, es: seq<Event>, e: Event)
    ensures Exec(r, START, es + [e]) == Step(r, Exec(r, START, es), e)
  {
    assert (es + [e])[..|es|] == es;
  }
}
