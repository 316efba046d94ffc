/** include/scheduler/AsyncScheduler.h: each request passes through three thread pools on its own, so requests may
    overtake each other. The tensor a request preprocesses into comes from InferenceBackend::GetTensorBuffer: a
    slot of the device's input pool in a CUDA build, and the backend's single buffer (number 0 here) otherwise. In a
    CUDA build infer leaves its output in a slot of the output pool (include/backend/OrtSessionWrapper.h), and the
    detector's stages work in slots of two more pools (src/runner/detect/YoloDetector.cpp). */
module AsyncScheduler {
  import opened Runner
  import opened BufferSlots

  datatype Output = Own(features: seq<Feature>) | InSlot(slot: nat)

  datatype Stage =
    | PreQueued
    | InferQueued(buffer: nat, params: seq<Params>)
    | PostQueued(output: Output, params: seq<Params>)
    | Ended(postThrew: bool)

  datatype Request = Request(x: Image, stage: Stage, result: Option<Outcome>)

  /** `staging` and `filters` count the slots of those pools that have not been kept for good; a task that takes one and
      returns it does so within its step. */
  datatype State = State(
    requests: seq<Request>, inputs: Slots<seq<Plane>>, outputs: Slots<seq<Feature>>, staging: nat, filters: nat)

  /** How a preprocess task ends: with an exception before it has a buffer, with one after it (or with the infer pool
      refusing the tensor), or with the tensor handed over. `kept`: the exception came while it had a staging slot. */
  datatype PreEnd = NoBuffer(kept: bool) | LostBuffer(kept: bool) | Prepared

  /** `Return` is the run of a release callback. A wrapped tensor starts with the given params. `over` is the image that a
      preprocess reads instead of its own, with the request whose copy runs beside its own. */
  datatype Event =
    | Submit(x: Image)
    | Pre(p: nat, pre: PreEnd, wrapped: seq<Params>, over: Option<(nat, Image)>)
    | Infer(p: nat, end: InferEnd)
    | Post(p: nat, answer: PostEnd)
    | Return(slot: nat)

  predicate UsesOutputPool(cuda: bool, r: Runner) {
    cuda && r.output.Pooled?
  }

  predicate UsesStaging(cuda: bool, r: Runner) {
    cuda && r.staging.Staged?
  }

  predicate UsesFilters(cuda: bool, r: Runner) {
    cuda && r.filtered
  }

  predicate TakesStaging(pre: PreEnd) {
    pre.NoBuffer? ==> pre.kept
  }

  function StagingAfter(n: nat, pre: PreEnd): nat
    requires TakesStaging(pre) ==> n > 0
  {
    if !pre.Prepared? && pre.kept then n - 1 else n
  }

  /** Two preprocess tasks can be under way at once: there are two staging slots, and the pools have a thread for each of the
      backend's buffers. */
  predicate TwoAtOnce(s: State) {
    s.staging >= 2 && |s.inputs.memory| >= 2
  }

  predicate OverEnabled(cuda: bool, r: Runner, s: State, p: nat, over: Option<(nat, Image)>)
    requires p < |s.requests|
  {
    over.Some? ==>
      && UsesStaging(cuda, r) && TwoAtOnce(s)
      && over.value.0 < |s.requests| && over.value.0 != p && s.requests[over.value.0].stage.PreQueued?
      && Tears(r, s.requests[p].x, s.requests[over.value.0].x, over.value.1)
  }

  /** The image a preprocess reads. */
  function Seen(x: Image, over: Option<(nat, Image)>): Image {
    if over.Some? then over.value.1 else x
  }

  predicate BufferReady(cuda: bool, r: Runner, s: State) {
    if cuda then Available(s.inputs) && |s.inputs.memory[s.inputs.free[0]]| == r.batch
    else 0 < |s.inputs.memory| && |s.inputs.memory[0]| == r.batch
  }

  /** What postprocess reads. */
  function Features(s: State, output: Output): seq<Feature>
    requires output.InSlot? ==> output.slot < |s.outputs.memory|
  {
    if output.Own? then output.features else s.outputs.memory[output.slot]
  }

  predicate Enabled(cuda: bool, r: Runner, s: State, e: Event) {
    match e
    case Submit(_) => true
    case Pre(p, pre, wrapped, over) =>
      && p < |s.requests| && s.requests[p].stage.PreQueued? && r.batch > 0 && |wrapped| == r.batch
      && (pre.NoBuffer? || BufferReady(cuda, r, s))
      && (UsesStaging(cuda, r) && TakesStaging(pre) ==> s.staging > 0)
      && OverEnabled(cuda, r, s, p, over)
    case Infer(p, end) =>
      && p < |s.requests| && s.requests[p].stage.InferQueued? && s.requests[p].stage.buffer < |s.inputs.memory|
      && (UsesOutputPool(cuda, r) && TakesOutput(end) ==> Available(s.outputs))
    case Post(p, end) =>
      && p < |s.requests| && s.requests[p].stage.PostQueued?
      && (UsesFilters(cuda, r) && TakesFilter(end) ==> s.filters > 0)
      && var stage := s.requests[p].stage;
      && (stage.output.InSlot? ==> stage.output.slot < |s.outputs.memory|)
      && (end.Answered? ==> r.post(Features(s, stage.output), stage.params) != [])
    case Return(k) => k in s.outputs.owed
  }

  function Submitted(s: State, x: Image): State {
    s.(requests := s.requests + [Request(x, PreQueued, Option.None)])
  }

  function At(s: State, p: nat, stage: Stage): State
    requires p < |s.requests|
  {
    s.(requests := s.requests[p := s.requests[p].(stage := stage)])
  }

  function SetPromise(s: State, p: nat, outcome: Outcome): State
    requires p < |s.requests|
  {
    s.(requests := s.requests[p := Request(s.requests[p].x, Ended(false), Some(outcome))])
  }

  /** The input pool when a preprocess task that reads x has filled its buffer, number k. */
  function PreInputs(cuda: bool, r: Runner, s: State, x: Image, pre: PreEnd): (Slots<seq<Plane>>, nat)
    requires r.batch > 0 && BufferReady(cuda, r, s)
  {
    var k := if cuda then s.inputs.free[0] else 0;
    var taken := if cuda then Taken(s.inputs) else s.inputs;
    var filled := BufferSlots.Filled(taken, k, s.inputs.memory[k][0 := r.pixels(x)]);
    (if cuda && pre.LostBuffer? then Lost(filled, k) else filled, k)
  }

  function Preprocessed(cuda: bool, r: Runner, s: State, p: nat, pre: PreEnd, wrapped: seq<Params>, over: Option<(nat, Image)>): State
    requires Enabled(cuda, r, s, Pre(p, pre, wrapped, over))
  {
    var staged := s.(staging := if UsesStaging(cuda, r) then StagingAfter(s.staging, pre) else s.staging);
    if pre.NoBuffer? then SetPromise(staged, p, Exception)
    else
      var x := s.requests[p].x;
      var (inputs, k) := PreInputs(cuda, r, s, Seen(x, over), pre);
      var s' := staged.(inputs := inputs);
      if pre.Prepared? then At(s', p, InferQueued(k, wrapped[0 := r.params(x)])) else SetPromise(s', p, Exception)
  }

  function Inferred(cuda: bool, r: Runner, s: State, p: nat, end: InferEnd): State
    requires Enabled(cuda, r, s, Infer(p, end))
  {
    var stage := s.requests[p].stage;
    var features := r.infer(s.inputs.memory[stage.buffer]);
    var output := if UsesOutputPool(cuda, r) && TakesOutput(end) then InSlot(s.outputs.free[0]) else Own(features);
    var s' := s.(inputs := if cuda then InputAfter(s.inputs, stage.buffer, end) else s.inputs,
                 outputs := if UsesOutputPool(cuda, r) then OutputAfter(s.outputs, end, features) else s.outputs);
    if end.Accepted? then At(s', p, PostQueued(output, stage.params)) else SetPromise(s', p, Exception)
  }

  function Postprocessed(cuda: bool, r: Runner, s: State, p: nat, end: PostEnd): State
    requires Enabled(cuda, r, s, Post(p, end))
  {
    var stage := s.requests[p].stage;
    var s' := s.(filters := if UsesFilters(cuda, r) then FiltersAfter(s.filters, end) else s.filters,
                 outputs := if stage.output.InSlot? && r.output.Pooled?
                            then OutputRead(s.outputs, stage.output.slot, r.output.copies) else s.outputs);
    if end.Answered? then SetPromise(s', p, Value(r.post(Features(s, stage.output), stage.params)[0]))
    else At(s', p, Ended(true))  // the only stage without a catch block
  }

  function Step(cuda: bool, r: Runner, s: State, e: Event): State {
    if !Enabled(cuda, r, s, e) then s else
    match e
    case Submit(x) => Submitted(s, x)
    case Pre(p, pre, wrapped, over) => Preprocessed(cuda, r, s, p, pre, wrapped, over)
    case Infer(p, end) => Inferred(cuda, r, s, p, end)
    case Post(p, end) => Postprocessed(cuda, r, s, p, end)
    case Return(k) => s.(outputs := Paid(s.outputs, k))
  }

  function Exec(cuda: bool, r: Runner, s: State, es: seq<Event>): State {
    if es == [] then s else Step(cuda, r, Exec(cuda, r, s, es[..|es| - 1]), es[|es| - 1])
  }

  lemma ExecOneMore(cuda: bool, r: Runner, s: State, es: seq<Event>, e: Event)
    ensures Exec(cuda, r, s, es + [e]) == Step(cuda, r, Exec(cuda, r, s, es), e)
  {
    assert (es + [e])[..|es|] == es;
  }

  lemma ExecJoins(cuda: bool, r: Runner, s: State, es: seq<Event>, more: seq<Event>)
    ensures Exec(cuda, r, s, es + more) == Exec(cuda, r, Exec(cuda, r, s, es), more)
  {
    ExecFrom(cuda, r, s, es, Exec(cuda, r, s, es), more);
  }

  lemma {:induction false} ExecFrom(cuda: bool, r: Runner, s: State, es: seq<Event>, t: State, more: seq<Event>)
    requires Exec(cuda, r, s, es) == t
    ensures Exec(cuda, r, s, es + more) == Exec(cuda, r, t, more)
    decreases |more|
  {
    if more == [] {
      assert es + more == es;
    } else {
      var e, rest := more[0], more[1..];
      assert more == [e] + rest && es + more == (es + [e]) + rest;
      ExecOneMore(cuda, r, s, es, e);
      ExecFrom(cuda, r, s, es + [e], Step(cuda, r, t, e), rest);
      assert Exec(cuda, r, t, []) == t && [] + [e] == [e];
      ExecOneMore(cuda, r, t, [], e);
      ExecFrom(cuda, r, t, [e], Step(cuda, r, t, e), rest);
    }
  }

  /** No request yet, every slot of both pools free, anything in the memory. */
  ghost predicate Initial(r: Runner, s: State) {
    && s.requests == [] && |s.inputs.memory| > 0 && |s.outputs.memory| > 0
    && (forall k :: 0 <= k < |s.inputs.memory| ==> |s.inputs.memory[k]| == r.batch)
    && s.inputs == AllFree(s.inputs.memory) && s.outputs == AllFree(s.outputs.memory)
    && s.staging > 0 && s.filters > 0
  }

  // ---------- the object ----------

  /** The scheduler over its backend's buffers; each method is one closure, run by one of the three pools. */
  class AsyncScheduler {
    const cuda: bool
    const runner: Runner
    ghost const init: State
    var requests: seq<Request>
    var inputs: Slots<seq<Plane>>
    var outputs: Slots<seq<Feature>>
    var staging: nat
    var filters: nat
    ghost var log: seq<Event>

    ghost function Current(): State
      reads this
    {
      State(requests, inputs, outputs, staging, filters)
    }

    ghost predicate Valid()
      reads this
    {
      Initial(runner, init) && Exec(cuda, runner, init, log) == Current()
    }

    constructor (cuda: bool, r: Runner, memory: seq<seq<Plane>>, outputMemory: seq<seq<Feature>>, stagingSlots: nat, filterSlots: nat)
      requires stagingSlots > 0 && filterSlots > 0 && |memory| > 0 && |outputMemory| > 0 && forall k :: 0 <= k < |memory| ==> |memory[k]| == r.batch
      ensures Valid() && this.cuda == cuda && runner == r && log == [] && requests == []
    {
      this.cuda, runner, requests, log := cuda, r, [], [];
      inputs, outputs, staging, filters := AllFree(memory), AllFree(outputMemory), stagingSlots, filterSlots;
      init := State([], AllFree(memory), AllFree(outputMemory), stagingSlots, filterSlots);
    }

    method Submit(x: Image) returns (p: nat)
      requires Valid()
      modifies this
      ensures Valid() && log == old(log) + [Event.Submit(x)]
      ensures p == |old(requests)| && requests == old(requests) + [Request(x, PreQueued, Option.None)]
    {
      ExecOneMore(cuda, runner, init, log, Event.Submit(x));
      p := |requests|;
      requests := requests + [Request(x, PreQueued, Option.None)];
      log := log + [Event.Submit(x)];
    }

    method SetResult(p: nat, outcome: Outcome)
      requires p < |requests|
      modifies this`requests
      ensures requests == old(requests)[p := Request(old(requests)[p].x, Ended(false), Some(outcome))]
    {
      requests := requests[p := Request(requests[p].x, Ended(false), Some(outcome))];
    }

    /** The copy of request p's image can be disturbed by the one of request q running beside it, so that `seen` is read back. */
    ghost predicate MayTear(p: nat, q: nat, seen: Image)
      reads this
    {
      && p < |requests| && q < |requests| && p != q && requests[q].stage.PreQueued?
      && staging >= 2 && |inputs.memory| >= 2 && runner.staging.Staged?
      && !(runner.staging.fits(requests[p].x) && runner.staging.fits(requests[q].x))
      && runner.staging.sees(requests[p].x, requests[q].x, seen)
    }

    /** The copy of the image to a staging slot; `seen` is what is read back from it. */
    method Stage(x: Image, pre: PreEnd, over: Option<(nat, Image)>) returns (seen: Image)
      requires UsesStaging(cuda, runner) && TakesStaging(pre) ==> staging > 0
      modifies this`staging
      ensures seen == Seen(x, over)
      ensures staging == if UsesStaging(cuda, runner) then StagingAfter(old(staging), pre) else old(staging)
    {
      seen := if over.Some? then over.value.1 else x;
      if UsesStaging(cuda, runner) && TakesStaging(pre) {
        staging := staging - 1;
        if pre.Prepared? || !pre.kept {
          staging := staging + 1;
        }
      }
    }

    method PreTask(p: nat, pre: PreEnd, wrapped: seq<Params>, over: Option<(nat, Image)>)
      requires Valid() && p < |requests| && requests[p].stage.PreQueued? && |wrapped| == runner.batch > 0
      requires !pre.NoBuffer? && cuda ==> inputs.free != [] && inputs.free[0] < |inputs.memory| && |inputs.memory[inputs.free[0]]| == runner.batch
      requires !pre.NoBuffer? && !cuda ==> |inputs.memory| > 0 && |inputs.memory[0]| == runner.batch
      requires cuda && runner.staging.Staged? && !(pre == NoBuffer(false)) ==> staging > 0
      requires over.Some? ==> cuda && MayTear(p, over.value.0, over.value.1)
      modifies this
      ensures Valid() && log == old(log) + [Pre(p, pre, wrapped, over)]
      ensures |requests| == |old(requests)| && requests[p].x == old(requests)[p].x
      ensures if pre.Prepared? then requests[p].stage.InferQueued? else requests[p].result == Some(Exception)
    {
      ExecOneMore(cuda, runner, init, log, Pre(p, pre, wrapped, over));
      var x := requests[p].x;
      var seen := Stage(x, pre, over);
      if !pre.NoBuffer? {
        var k := 0;
        if cuda {
          k, inputs := inputs.free[0], Taken(inputs);
        }
        inputs := BufferSlots.Filled(inputs, k, inputs.memory[k][0 := runner.pixels(seen)]);
        if pre.Prepared? {
          requests := requests[p := requests[p].(stage := InferQueued(k, wrapped[0 := runner.params(x)]))];
        } else if cuda {
          inputs := Lost(inputs, k);
        }
      }
      if !pre.Prepared? {
        SetResult(p, Exception);
      }
      log := log + [Pre(p, pre, wrapped, over)];
    }

    /** OrtSessionWrapper::infer: takes an output slot, runs the session, returns the input slot. */
    method RunSession(p: nat, end: InferEnd) returns (output: Output)
      requires p < |requests| && requests[p].stage.InferQueued? && requests[p].stage.buffer < |inputs.memory|
      requires UsesOutputPool(cuda, runner) && TakesOutput(end) ==> Available(outputs)
      modifies this`inputs, this`outputs
      ensures var features, k := runner.infer(old(inputs).memory[requests[p].stage.buffer]), requests[p].stage.buffer;
        && output == (if UsesOutputPool(cuda, runner) && TakesOutput(end) then InSlot(old(outputs).free[0]) else Own(features))
        && inputs == (if cuda then InputAfter(old(inputs), k, end) else old(inputs))
        && outputs == (if UsesOutputPool(cuda, runner) then OutputAfter(old(outputs), end, features) else old(outputs))
    {
      var k := requests[p].stage.buffer;
      var features := runner.infer(inputs.memory[k]);
      output := Own(features);
      if UsesOutputPool(cuda, runner) && TakesOutput(end) {
        var j := outputs.free[0];
        outputs := BufferSlots.Filled(Taken(outputs), j, features);
        output := InSlot(j);
        if end.Threw? || (end.ThrewLate? && end.lost) {
          outputs := Lost(outputs, j);
        } else if !end.Accepted? {
          outputs := Owing(outputs, j, 1);
        }
      }
      if cuda {
        inputs := if end.Threw? then Lost(inputs, k) else Returned(inputs, k);
      }
    }

    method InferTask(p: nat, end: InferEnd)
      requires Valid() && p < |requests| && requests[p].stage.InferQueued? && requests[p].stage.buffer < |inputs.memory|
      requires cuda && runner.output.Pooled? && end != Threw(false) ==> outputs.free != [] && outputs.free[0] < |outputs.memory|
      modifies this
      ensures Valid() && log == old(log) + [Infer(p, end)]
      ensures |requests| == |old(requests)| && requests[p].x == old(requests)[p].x
      ensures if end.Accepted? then requests[p].stage.PostQueued? else requests[p].result == Some(Exception)
      ensures cuda ==> inputs == InputAfter(old(inputs), old(requests)[p].stage.buffer, end)
    {
      ExecOneMore(cuda, runner, init, log, Infer(p, end));
      var output := RunSession(p, end);
      if end.Accepted? {
        requests := requests[p := requests[p].(stage := PostQueued(output, requests[p].stage.params))];
      } else {
        SetResult(p, Exception);
      }
      log := log + [Infer(p, end)];
    }

    /** What postprocess does with its filter slot: the early return for nothing found skips the release, and so does an
        exception. */
    method UseFilter(end: PostEnd)
      requires UsesFilters(cuda, runner) && TakesFilter(end) ==> filters > 0
      modifies this`filters
      ensures filters == if UsesFilters(cuda, runner) then FiltersAfter(old(filters), end) else old(filters)
    {
      if UsesFilters(cuda, runner) && TakesFilter(end) {
        filters := filters - 1;
        if end.Answered? && end.found {
          filters := filters + 1;
        }
      }
    }

    /** An exception here stays in the pool's own future; the promise is left unset. */
    method PostTask(p: nat, end: PostEnd)
      requires Valid() && p < |requests| && requests[p].stage.PostQueued?
      requires requests[p].stage.output.InSlot? ==> requests[p].stage.output.slot < |outputs.memory|
      requires end.Answered? ==> runner.post(Features(Current(), requests[p].stage.output), requests[p].stage.params) != []
      requires cuda && runner.filtered && end != PostThrew(false) ==> filters > 0
      modifies this
      ensures Valid() && log == old(log) + [Post(p, end)]
      ensures |requests| == |old(requests)| && requests[p].x == old(requests)[p].x
      ensures if end.Answered? then requests[p].result.Some? && requests[p].result.value.Value?
              else requests[p].result == old(requests)[p].result
      ensures var output := old(requests)[p].stage.output;
        if output.InSlot? && runner.output.Pooled? then
          outputs == old(outputs).(owed := old(outputs.owed)[output.slot := old(outputs.owed)[output.slot] + 1 + runner.output.copies])
        else outputs == old(outputs)
      ensures filters == if UsesFilters(cuda, runner) then FiltersAfter(old(filters), end) else old(filters)
    {
      ExecOneMore(cuda, runner, init, log, Post(p, end));
      UseFilter(end);
      var stage := requests[p].stage;
      if end.Answered? {
        var features := if stage.output.Own? then stage.output.features else outputs.memory[stage.output.slot];
        SetResult(p, Value(runner.post(features, stage.params)[0]));
      } else {
        requests := requests[p := requests[p].(stage := Ended(true))];
      }
      if stage.output.InSlot? && runner.output.Pooled? {
        outputs := Owing(outputs, stage.output.slot, 1 + runner.output.copies);
      }
      log := log + [Post(p, end)];
    }

    /** The destructor of a tensor that carries a release callback. */
    method RunCallback(slot: nat)
      requires Valid() && slot in outputs.owed
      modifies this
      ensures Valid() && log == old(log) + [Return(slot)]
      ensures outputs.free == old(outputs).free + [slot] && requests == old(requests) && inputs == old(inputs)
    {
      ExecOneMore(cuda, runner, init, log, Return(slot));
      outputs := Paid(outputs, slot);
      log := log + [Return(slot)];
    }
  }
}
