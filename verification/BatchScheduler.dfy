/** include/scheduler/BatchScheduler.h: requests are grouped under a lock into batches; a batch's preprocessing
    fans out to a pool, then one inference and one postprocess serve it and its promises are set.

    The worker holds the mutex through a whole batching round, so one pass of its do-while loop is one event; the
    tasks it enqueued interleave with it, with each other and with callers in every order. */
module BatchScheduler {
  import opened Runner
  import opened Arithmetic

  datatype Pre = Pending | Done | Failed

  datatype Phase =
    | Awaiting(next: nat)                        // infer task: get() on the preprocess futures, in order
    | PostQueued(features: seq<Feature>)         // the post executor accepted the job
    | Delivering(answers: seq<Answer>, next: nat)
    | Failing(next: nat)                         // a catch block: set_exception on every promise in turn
    | Lost                                       // the post executor refused a job that had already taken the promises

  /** `results[i]` is the state of promise `promises[i]`. */
  datatype Batch = Batch(
    inputs: seq<Image>, promises: seq<nat>,
    planes: seq<Plane>, params: seq<Params>,
    pre: seq<Pre>, phase: Phase, results: seq<Option<Outcome>>)

  datatype Task =
    | Preprocess(slot: nat, ok: bool)
    | AwaitPre
    | Infer(ok: bool, accepted: bool)
    | Post(ok: bool)
    | SetValue(ok: bool)
    | SetException

  predicate TaskEnabled(b: Batch, t: Task) {
    match t
    case Preprocess(i, _) => i < |b.pre| && i < |b.inputs| && i < |b.planes| && i < |b.params| && b.pre[i].Pending?
    case AwaitPre => b.phase.Awaiting? && b.phase.next < |b.pre| && !b.pre[b.phase.next].Pending?
    case Infer(_, _) => b.phase.Awaiting? && b.phase.next == |b.pre|
    case Post(_) => b.phase.PostQueued?
    case SetValue(_) => b.phase.Delivering? && b.phase.next < |b.results| && b.phase.next < |b.phase.answers|
    case SetException => b.phase.Failing? && b.phase.next < |b.results|
  }

  function TaskStep(r: Runner, b: Batch, t: Task): Batch
    requires TaskEnabled(b, t)
  {
    match t
    case Preprocess(i, ok) =>
      if !ok then b.(pre := b.pre[i := Failed])
      else b.(planes := b.planes[i := r.pixels(b.inputs[i])],
              params := b.params[i := r.params(b.inputs[i])],
              pre := b.pre[i := Done])
    case AwaitPre => b.(phase := if b.pre[b.phase.next].Failed? then Failing(0) else Awaiting(b.phase.next + 1))
    case Infer(ok, accepted) =>
      b.(phase := if !ok then Failing(0) else if accepted then PostQueued(r.infer(b.planes)) else Lost)
    case Post(ok) => b.(phase := if !ok then Failing(0) else Delivering(r.post(b.phase.features, b.params), 0))
    case SetValue(ok) =>
      if !ok || b.results[b.phase.next].Some? then b.(phase := Failing(0))
      else b.(results := b.results[b.phase.next := Some(Value(b.phase.answers[b.phase.next]))],
              phase := b.phase.(next := b.phase.next + 1))
    case SetException =>  // a promise that is already satisfied refuses it, and the refusal is swallowed
      b.(results := if b.results[b.phase.next].Some? then b.results else b.results[b.phase.next := Some(Exception)],
         phase := Failing(b.phase.next + 1))
  }

  /** `Batching` keeps the worker's local `timed_out_with_data`. */
  datatype Worker = Waiting | Batching(timedOut: bool) | Exited

  /** `submitted` lists every accepted request; a request's promise is its index there.
      `pendingAtClose` is the queue length when the destructor set is_close_. */
  datatype State = State(
    submitted: seq<Image>,
    inputs: seq<Image>, promises: seq<nat>,
    closed: bool, pendingAtClose: nat,
    worker: Worker, batches: seq<Batch>)

  datatype Event =
    | Submit(x: Image)
    | Close
    | Wake(expired: bool)
    | Round(buffer: Option<(seq<Plane>, seq<Params>)>)  // None: an invalid tensor buffer
    | Work(batch: nat, task: Task)

  const START := State([], [], [], false, 0, Waiting, [])

  predicate WakePredicate(r: Runner, s: State) {
    |s.inputs| >= r.batch || s.closed
  }

  predicate Enabled(r: Runner, s: State, e: Event) {
    match e
    case Submit(_) => !s.worker.Batching?   // the mutex is free
    case Close => !s.worker.Batching?
    case Wake(expired) => s.worker.Waiting? && (expired || WakePredicate(r, s))
    case Round(buffer) => s.worker.Batching? && (buffer.Some? ==> |buffer.value.0| == |buffer.value.1| == r.batch)
    case Work(b, t) => b < |s.batches| && TaskEnabled(s.batches[b], t)
  }

  function AfterBatching(s: State): State {
    s.(worker := if s.closed then Exited else Waiting)
  }

  function Woken(r: Runner, s: State): State {
    var timedOut := !WakePredicate(r, s) && s.inputs != [];
    if |s.inputs| >= r.batch || timedOut then s.(worker := Batching(timedOut)) else AfterBatching(s)
  }

  function NewBatch(inputs: seq<Image>, promises: seq<nat>, planes: seq<Plane>, params: seq<Params>): Batch {
    Batch(inputs, promises, planes, params, seq(|inputs|, _ => Pending), Awaiting(0), seq(|inputs|, _ => Option.None))
  }

  function Batched(r: Runner, s: State, planes: seq<Plane>, params: seq<Params>): State {
    var size := Min(r.batch, |s.inputs|);
    if size == 0 || |s.promises| < size then AfterBatching(s)  // "Insufficient imgs or promises"
    else
      var s' := s.(inputs := s.inputs[size..], promises := s.promises[size..],
                   batches := s.batches + [NewBatch(s.inputs[..size], s.promises[..size], planes, params)]);
      if |s'.inputs| >= r.batch then s' else AfterBatching(s')
  }

  function Step(r: Runner, s: State, e: Event): State {
    if !Enabled(r, s, e) then s else
    match e
    case Submit(x) =>
      if s.closed then s  // throws runtime_error
      else s.(submitted := s.submitted + [x], inputs := s.inputs + [x], promises := s.promises + [|s.submitted|])
    case Close => if s.closed then s else s.(closed := true, pendingAtClose := |s.inputs|)
    case Wake(_) => Woken(r, s)
    case Round(None) => AfterBatching(s)
    case Round(Some((planes, params))) => Batched(r, s, planes, params)
    case Work(b, t) => s.(batches := s.batches[b := TaskStep(r, s.batches[b], t)])
  }

  function Exec(r: Runner, s: State, es: seq<Event>): State {
    if es == [] then s else Step(r, Exec(r, s, es[..|es| - 1]), es[|es| - 1])
  }

  lemma ExecOneMore(r: Runner, es: seq<Event>, e: Event)
    ensures Exec(r, START, es + [e]) == Step(r, Exec(r, START, es), e)
  {
    assert (es + [e])[..|es|] == es;
  }

  /** Runs in which every tensor buffer is valid. */
  ghost predicate BuffersValid(es: seq<Event>) {
    forall i :: 0 <= i < |es| && es[i].Round? ==> es[i].buffer.Some?
  }

  // ---------- one batch ----------

  ghost predicate AllDone(b: Batch) {
    forall i :: 0 <= i < |b.pre| ==> b.pre[i].Done?
  }

  ghost predicate AllUnset(b: Batch, from: nat) {
    forall i :: from <= i < |b.results| ==> b.results[i].None?
  }

  ghost predicate AllSet(b: Batch, to: nat) {
    forall i :: 0 <= i < to && i < |b.results| ==> b.results[i].Some?
  }

  ghost predicate Ended(b: Batch) {
    || b.phase.Lost?
    || ((b.phase.Delivering? || b.phase.Failing?) && b.phase.next == |b.results|)
  }

  ghost predicate Shape(r: Runner, b: Batch) {
    && 1 <= |b.inputs| <= r.batch
    && |b.promises| == |b.pre| == |b.results| == |b.inputs|
    && |b.planes| == |b.params| == r.batch
  }

  /** A slot whose preprocessing succeeded holds its own request's data. */
  ghost predicate SlotsFilled(r: Runner, b: Batch)
    requires Shape(r, b)
  {
    forall i :: 0 <= i < |b.pre| && b.pre[i].Done? ==>
      b.planes[i] == r.pixels(b.inputs[i]) && b.params[i] == r.params(b.inputs[i])
  }

  ghost function Answers(r: Runner, b: Batch): seq<Answer> {
    r.post(r.infer(b.planes), b.params)
  }

  ghost predicate ResultsRight(r: Runner, b: Batch) {
    forall i :: 0 <= i < |b.results| && b.results[i].Some? && b.results[i].value.Value? ==>
      AllDone(b) && i < |Answers(r, b)| && b.results[i].value.answer == Answers(r, b)[i]
  }

  ghost predicate PhaseRight(r: Runner, b: Batch) {
    match b.phase
    case Awaiting(n) => n <= |b.pre| && (forall i :: 0 <= i < n ==> b.pre[i].Done?) && AllUnset(b, 0)
    case PostQueued(f) => AllDone(b) && f == r.infer(b.planes) && AllUnset(b, 0)
    case Delivering(a, n) =>
      AllDone(b) && a == Answers(r, b) && |b.results| <= |a| && n <= |b.results| && AllSet(b, n) && AllUnset(b, n)
    case Failing(n) => n <= |b.results| && AllSet(b, n)
    case Lost => AllUnset(b, 0)
  }

  ghost predicate BatchInv(r: Runner, b: Batch) {
    Shape(r, b) && SlotsFilled(r, b) && ResultsRight(r, b) && PhaseRight(r, b)
  }

  lemma TaskKeepsBatchInv(r: Runner, b: Batch, t: Task)
    requires SlotWise(r) && BatchInv(r, b) && TaskEnabled(b, t)
    ensures BatchInv(r, TaskStep(r, b, t))
  {
  }

  /** Work left in a batch; every task event uses some up. */
  function Measure(b: Batch): nat {
    var n := |b.results|;
    PendingCount(b.pre) + match b.phase
      case Awaiting(k) => 2 * n + 5 + (if k <= |b.pre| then |b.pre| - k else 0)
      case PostQueued(_) => 2 * n + 4
      case Delivering(_, k) => n + 2 + (if k <= n then n - k else 0)
      case Failing(k) => 1 + (if k <= n then n - k else 0)
      case Lost => 0
  }

  function PendingCount(pre: seq<Pre>): nat {
    if pre == [] then 0 else PendingCount(pre[..|pre| - 1]) + (if pre[|pre| - 1].Pending? then 1 else 0)
  }

  lemma {:induction false} PendingCountUpdate(pre: seq<Pre>, i: nat, p: Pre)
    requires i < |pre| && pre[i].Pending? && !p.Pending?
    ensures PendingCount(pre[i := p]) == PendingCount(pre) - 1
  {
    var n := |pre| - 1;
    if i < n {
      PendingCountUpdate(pre[..n], i, p);
      assert pre[i := p][..n] == pre[..n][i := p];
    } else {
      assert pre[i := p][..n] == pre[..n];
    }
  }

  /** A batch that has not ended always has a task that can run, and every task that runs brings the end nearer. */
  lemma BatchProgress(r: Runner, b: Batch)
    requires BatchInv(r, b)
    ensures !Ended(b) ==> exists t :: TaskEnabled(b, t)
    ensures forall t :: TaskEnabled(b, t) ==> Measure(TaskStep(r, b, t)) < Measure(b)
  {
    if !Ended(b) {
      var t := match b.phase
        case Awaiting(n) =>
          if n == |b.pre| then Infer(true, true)
          else if b.pre[n].Pending? then Preprocess(n, true) else AwaitPre
        case PostQueued(_) => Post(true)
        case Delivering(_, _) => SetValue(true)
        case _ => SetException;
      assert TaskEnabled(b, t);
    }
    forall t | TaskEnabled(b, t)
      ensures Measure(TaskStep(r, b, t)) < Measure(b)
    {
      if t.Preprocess? {
        PendingCountUpdate(b.pre, t.slot, if t.ok then Done else Failed);
      }
    }
  }

  /** A promise that has been set keeps its outcome. */
  lemma OutcomesAreFinal(r: Runner, b: Batch, t: Task, i: nat)
    requires TaskEnabled(b, t) && i < |b.results| && b.results[i].Some?
    ensures i < |TaskStep(r, b, t).results| && TaskStep(r, b, t).results[i] == b.results[i]
  {
  }

  lemma {:induction false} RunsKeepOutcomes(r: Runner, es: seq<Event>, more: seq<Event>, b: nat, i: nat)
    requires var s := Exec(r, START, es); b < |s.batches| && i < |s.batches[b].results| && s.batches[b].results[i].Some?
    ensures var s, s' := Exec(r, START, es), Exec(r, START, es + more);
      b < |s'.batches| && i < |s'.batches[b].results| && s'.batches[b].results[i] == s.batches[b].results[i]
  {
    if more == [] {
      assert es + more == es;
    } else {
      var n := |more| - 1;
      RunsKeepOutcomes(r, es, more[..n], b, i);
      assert (es + more)[..|es| + n] == es + more[..n];
      var s, e := Exec(r, START, es + more[..n]), more[n];
      assert Exec(r, START, es + more) == Step(r, s, e);
      if e.Work? && Enabled(r, s, e) && e.batch == b {
        OutcomesAreFinal(r, s.batches[b], e.task, i);
      }
    }
  }

  /** When a batch has ended every promise has its outcome, unless the post executor refused the job: then none has,
      because the job had already taken the promises away from the catch block. */
  lemma EndedBatchOutcomes(r: Runner, b: Batch)
    requires BatchInv(r, b) && Ended(b)
    ensures AllSet(b, |b.results|) <==> !b.phase.Lost?
    ensures b.phase.Lost? ==> AllUnset(b, 0)
  {
    if b.phase.Lost? {
      assert b.results[0].None?;
    }
  }

  // ---------- the queue and its history ----------

  function AllInputs(bs: seq<Batch>): seq<Image> {
    if bs == [] then [] else AllInputs(bs[..|bs| - 1]) + bs[|bs| - 1].inputs
  }

  function AllPromises(bs: seq<Batch>): seq<nat> {
    if bs == [] then [] else AllPromises(bs[..|bs| - 1]) + bs[|bs| - 1].promises
  }

  ghost predicate QueueInv(r: Runner, s: State) {
    && |s.inputs| == |s.promises|
    && AllInputs(s.batches) + s.inputs == s.submitted
    && AllPromises(s.batches) + s.promises == Numbers(|s.submitted|)
    && (s.worker.Batching? ==> if s.worker.timedOut then 0 < |s.inputs| < r.batch else |s.inputs| >= r.batch)
    && (s.worker.Exited? ==> s.closed)
    && (s.worker.Batching? && s.closed ==> !s.worker.timedOut)
  }

  ghost predicate Inv(r: Runner, s: State) {
    && QueueInv(r, s)
    && forall b :: 0 <= b < |s.batches| ==> BatchInv(r, s.batches[b])
  }

  lemma {:induction false} WorkKeepsHistory(bs: seq<Batch>, k: nat, b: Batch)
    requires k < |bs| && b.inputs == bs[k].inputs && b.promises == bs[k].promises
    ensures AllInputs(bs[k := b]) == AllInputs(bs)
    ensures AllPromises(bs[k := b]) == AllPromises(bs)
  {
    var n := |bs| - 1;
    if k < n {
      assert bs[k := b][..n] == bs[..n][k := b];
      WorkKeepsHistory(bs[..n], k, b);
    } else {
      assert bs[k := b][..n] == bs[..n];
    }
  }

  /** With batches of at least one slot the "insufficient" break never happens: a round always takes
      between 1 and `batch` requests, fewer than `batch` only after a timeout, and then the queue is empty. */
  lemma RoundTakesABatch(r: Runner, s: State, planes: seq<Plane>, params: seq<Params>)
    requires r.batch > 0 && Inv(r, s) && s.worker.Batching? && IsBuffer(r, planes, params)
    ensures var s' := Step(r, s, Round(Some((planes, params))));
      && |s'.batches| == |s.batches| + 1
      && s'.batches[..|s.batches|] == s.batches
      && (var b := s'.batches[|s.batches|];
          && BatchInv(r, b)
          && 1 <= |b.inputs| <= r.batch
          && b.inputs + s'.inputs == s.inputs && b.promises + s'.promises == s.promises
          && (|b.inputs| < r.batch ==> s.worker.timedOut && s'.inputs == []))
      && (s'.worker.Batching? <==> |s'.inputs| >= r.batch)
  {
    var s' := Step(r, s, Round(Some((planes, params))));
    var size := Min(r.batch, |s.inputs|);
    assert s'.batches == s.batches + [NewBatch(s.inputs[..size], s.promises[..size], planes, params)];
  }

  lemma RoundKeepsHistory(r: Runner, s: State, planes: seq<Plane>, params: seq<Params>)
    requires r.batch > 0 && Inv(r, s) && s.worker.Batching? && IsBuffer(r, planes, params)
    ensures var s' := Step(r, s, Round(Some((planes, params))));
      && AllInputs(s'.batches) + s'.inputs == AllInputs(s.batches) + s.inputs
      && AllPromises(s'.batches) + s'.promises == AllPromises(s.batches) + s.promises
  {
    var s' := Step(r, s, Round(Some((planes, params))));
    RoundTakesABatch(r, s, planes, params);
    assert s'.batches[..|s'.batches| - 1] == s.batches;
    var b := s'.batches[|s.batches|];
    assert AllInputs(s'.batches) + s'.inputs == AllInputs(s.batches) + (b.inputs + s'.inputs);
    assert AllPromises(s'.batches) + s'.promises == AllPromises(s.batches) + (b.promises + s'.promises);
  }

  lemma RoundKeepsInv(r: Runner, s: State, buffer: Option<(seq<Plane>, seq<Params>)>)
    requires r.batch > 0 && Inv(r, s)
    ensures Inv(r, Step(r, s, Round(buffer)))
  {
    if Enabled(r, s, Round(buffer)) && buffer.Some? {
      var s' := Step(r, s, Round(buffer));
      RoundTakesABatch(r, s, buffer.value.0, buffer.value.1);
      RoundKeepsHistory(r, s, buffer.value.0, buffer.value.1);
      assert QueueInv(r, s');
      forall b | 0 <= b < |s'.batches|
        ensures BatchInv(r, s'.batches[b])
      {
        if b < |s.batches| {
          assert s'.batches[b] == s'.batches[..|s.batches|][b];
        }
      }
    }
  }

  lemma SubmitKeepsInv(r: Runner, s: State, x: Image)
    requires Inv(r, s)
    ensures Inv(r, Step(r, s, Submit(x)))
  {
    assert AllInputs(s.batches) + (s.inputs + [x]) == (AllInputs(s.batches) + s.inputs) + [x];
    assert AllPromises(s.batches) + (s.promises + [|s.submitted|])
        == (AllPromises(s.batches) + s.promises) + [|s.submitted|];
  }

  lemma WorkKeepsInv(r: Runner, s: State, b: nat, t: Task)
    requires SlotWise(r) && Inv(r, s) && Enabled(r, s, Work(b, t))
    ensures Inv(r, Step(r, s, Work(b, t)))
  {
    TaskKeepsBatchInv(r, s.batches[b], t);
    WorkKeepsHistory(s.batches, b, TaskStep(r, s.batches[b], t));
  }

  lemma StepKeepsInv(r: Runner, s: State, e: Event)
    requires SlotWise(r) && r.batch > 0 && Inv(r, s)
    ensures Inv(r, Step(r, s, e))
  {
    match e
    case Submit(x) => SubmitKeepsInv(r, s, x);
    case Round(buffer) => RoundKeepsInv(r, s, buffer);
    case Work(b, t) => if Enabled(r, s, e) { WorkKeepsInv(r, s, b, t); }
    case _ =>
  }

  lemma {:induction false} InvHolds(r: Runner, es: seq<Event>)
    requires SlotWise(r) && r.batch > 0
    ensures Inv(r, Exec(r, START, es))
  {
    if es != [] {
      InvHolds(r, es[..|es| - 1]);
      StepKeepsInv(r, Exec(r, START, es[..|es| - 1]), es[|es| - 1]);
    }
  }

  // ---------- the object ----------

  /** A turn of the worker logs its wake-up and then only batching rounds. */
  ghost predicate OneTurn(before: seq<Event>, expired: bool, after: seq<Event>) {
    before + [Wake(expired)] <= after && forall k :: |before| < k < |after| ==> after[k].Round?
  }

  datatype TurnEnd = Exit | Again | Blocked

  /** How many tensor buffers a turn of the worker asks for, when all are valid. */
  function RoundsNeeded(r: Runner, queued: nat, closed: bool): nat
    requires r.batch > 0
  {
    if queued >= r.batch then queued / r.batch else if queued > 0 && !closed then 1 else 0
  }

  lemma QuotientPositive(n: nat, m: nat)
    requires m > 0
    ensures n >= m <==> n / m > 0
  {
    assert n == (n / m) * m + n % m;
    if n / m > 0 {
      MulGrows(n / m, m);
    }
  }

  /** The division, when a batch has been taken out of a full queue. */
  lemma OneRoundFewer(n: nat, m: nat)
    requires m > 0
    ensures n >= m ==> n / m == 1 + (if n - m >= m then (n - m) / m else 0)
  {
    if n >= m {
      assert n == (n / m) * m + n % m && n - m == (n / m - 1) * m + n % m;
      ModUnique(n - m, m, n / m - 1, n % m);
      QuotientPositive(n - m, m);
    }
  }

  /** The scheduler's mutable state. Each method is a locked section or a task run to its end without interruption;
      `log` records the events it performed, so the results about runs apply to it. */
  class BatchScheduler {
    const runner: Runner
    var inputs: seq<Image>
    var promises: seq<nat>
    var isClose: bool
    var promisesMade: nat  // names the promise made for the next request
    var dispatched: seq<Batch>
    ghost var log: seq<Event>

    ghost function Current(): State
      reads this
    {
      Exec(runner, START, log)
    }

    ghost predicate Valid()
      reads this
    {
      && SlotWise(runner) && runner.batch > 0
      && Current().inputs == inputs && Current().promises == promises
      && |Current().submitted| == promisesMade && Current().closed == isClose && Current().batches == dispatched
    }

    constructor (r: Runner)
      requires SlotWise(r) && r.batch > 0
      ensures Valid() && runner == r && log == [] && inputs == [] && !isClose && dispatched == []
    {
      runner := r;
      inputs, promises, isClose, promisesMade, dispatched, log := [], [], false, 0, [], [];
    }

    method Submit(x: Image) returns (accepted: bool)
      requires Valid() && !Current().worker.Batching?
      modifies this
      ensures Valid() && log == old(log) + [Event.Submit(x)] && dispatched == old(dispatched) && isClose == old(isClose)
      ensures accepted == !old(isClose)
      ensures inputs == if accepted then old(inputs) + [x] else old(inputs)
      ensures promises == if accepted then old(promises) + [|old(Current().submitted)|] else old(promises)
    {
      ExecOneMore(runner, log, Event.Submit(x));
      accepted := !isClose;
      if accepted {
        inputs, promises, promisesMade := inputs + [x], promises + [promisesMade], promisesMade + 1;
      }
      log := log + [Event.Submit(x)];
    }

    /** The locked part of the destructor. */
    method Close()
      requires Valid() && !Current().worker.Batching?
      modifies this
      ensures Valid() && log == old(log) + [Event.Close]
      ensures isClose && inputs == old(inputs) && promises == old(promises) && dispatched == old(dispatched)
    {
      ExecOneMore(runner, log, Event.Close);
      isClose := true;
      log := log + [Event.Close];
    }

    /** One pass of run()'s do-while loop; `again` is the loop's test, false after a break. */
    method RoundOnce(buffer: Option<(seq<Plane>, seq<Params>)>) returns (again: bool)
      requires Valid() && Current().worker.Batching?
      requires buffer.Some? ==> IsBuffer(runner, buffer.value.0, buffer.value.1)
      modifies this
      ensures Valid() && log == old(log) + [Round(buffer)] && isClose == old(isClose)
      ensures Current().worker == if again then old(Current().worker) else if isClose then Exited else Waiting
      ensures again ==> |inputs| < |old(inputs)|
      ensures buffer.None? ==> !again && inputs == old(inputs) && dispatched == old(dispatched)
      ensures buffer.Some? ==> |dispatched| == |old(dispatched)| + 1 && old(dispatched) < dispatched && again == (|inputs| >= runner.batch)
      ensures buffer.Some? ==> inputs == old(inputs)[Min(runner.batch, |old(inputs)|)..]
    {
      InvHolds(runner, log);
      ExecOneMore(runner, log, Round(buffer));
      if buffer.None? {
        again := false;
      } else {
        RoundTakesABatch(runner, Current(), buffer.value.0, buffer.value.1);
        var size := Min(runner.batch, |inputs|);
        dispatched := dispatched + [NewBatch(inputs[..size], promises[..size], buffer.value.0, buffer.value.1)];
        inputs, promises := inputs[size..], promises[size..];
        again := |inputs| >= runner.batch;
      }
      log := log + [Round(buffer)];
    }

    /** One turn of run()'s outer loop, from the return of wait_for on. The first `available` calls of getTensorBuffer return,
        the k-th with `getTensorBuffer(k)`; the next one never does, and then the worker keeps the mutex. */
    method RunTurn(expired: bool, available: nat, getTensorBuffer: nat -> Option<(seq<Plane>, seq<Params>)>) returns (end: TurnEnd)
      requires Valid() && Current().worker.Waiting? && (expired || |inputs| >= runner.batch || isClose)
      requires forall k :: getTensorBuffer(k).Some? ==>
                 IsBuffer(runner, getTensorBuffer(k).value.0, getTensorBuffer(k).value.1)
      modifies this
      ensures Valid() && isClose == old(isClose) && OneTurn(old(log), expired, log) && old(dispatched) <= dispatched
      ensures Current().worker.Batching? <==> end.Blocked?
      ensures end.Blocked? ==> |dispatched| == |old(dispatched)| + available
      ensures !end.Blocked? ==> end.Exit? == isClose && Current().worker == if isClose then Exited else Waiting
      ensures (forall k :: getTensorBuffer(k).Some?) ==>
                && (end.Blocked? <==> RoundsNeeded(runner, |old(inputs)|, isClose) > available)
                && (!end.Blocked? ==> |inputs| < runner.batch && (!isClose && old(inputs) != [] ==> old(dispatched) < dispatched))
    {
      ghost var before, needed := log, RoundsNeeded(runner, |inputs|, isClose);
      ExecOneMore(runner, log, Wake(expired));
      var conditionMet := |inputs| >= runner.batch || isClose;
      var batchReady := |inputs| >= runner.batch;
      var timedOutWithData := !conditionMet && |inputs| > 0;
      log := log + [Wake(expired)];
      if batchReady || timedOutWithData {
        var asked := 0;
        var again := true;
        while again
          invariant Valid() && isClose == old(isClose) && OneTurn(before, expired, log) && old(dispatched) <= dispatched
          invariant Current().worker == if again then Batching(timedOutWithData) else if isClose then Exited else Waiting
          invariant asked <= available && (again ==> |dispatched| == |old(dispatched)| + asked)
          invariant (forall k :: getTensorBuffer(k).Some?) ==>
                      && needed == asked + (if !again then 0 else if |inputs| >= runner.batch then |inputs| / runner.batch else 1)
                      && (!again ==> |inputs| < runner.batch && old(dispatched) < dispatched)
          decreases again, |inputs|
        {
          if asked == available {
            QuotientPositive(|inputs|, runner.batch);
            return Blocked;
          }
          OneRoundFewer(|inputs|, runner.batch);
          again := RoundOnce(getTensorBuffer(asked));
          asked := asked + 1;
        }
      }
      end := if isClose then Exit else Again;
    }

    method Perform(b: nat, t: Task)
      requires Valid() && b < |dispatched| && TaskEnabled(dispatched[b], t)
      modifies this`dispatched, this`log
      ensures Valid() && log == old(log) + [Work(b, t)]
      ensures dispatched == old(dispatched)[b := TaskStep(runner, old(dispatched)[b], t)]
    {
      ExecOneMore(runner, log, Work(b, t));
      dispatched := dispatched[b := TaskStep(runner, dispatched[b], t)];
      log := log + [Work(b, t)];
    }

    /** The loop over the preprocess futures, all of them ready. */
    method AwaitAll(b: nat)
      requires Valid() && b < |dispatched| && BatchInv(runner, dispatched[b]) && dispatched[b].phase == Awaiting(0)
      requires forall i :: 0 <= i < |dispatched[b].pre| ==> !dispatched[b].pre[i].Pending?
      modifies this`dispatched, this`log
      ensures Valid() && |dispatched| == |old(dispatched)| && BatchInv(runner, dispatched[b])
      ensures forall c :: 0 <= c < |dispatched| && c != b ==> dispatched[c] == old(dispatched)[c]
      ensures dispatched[b] == old(dispatched)[b].(phase :=
                if AllDone(dispatched[b]) then Awaiting(|dispatched[b].pre|) else Failing(0))
    {
      while dispatched[b].phase.Awaiting? && dispatched[b].phase.next < |dispatched[b].pre|
        invariant Valid() && |dispatched| == |old(dispatched)|
        invariant forall c :: 0 <= c < |dispatched| && c != b ==> dispatched[c] == old(dispatched)[c]
        invariant dispatched[b] == old(dispatched)[b].(phase := dispatched[b].phase)
        invariant if dispatched[b].phase.Awaiting?
                  then dispatched[b].phase.next <= |dispatched[b].pre| && forall i :: 0 <= i < dispatched[b].phase.next ==> dispatched[b].pre[i].Done?
                  else dispatched[b].phase == Failing(0) && !AllDone(dispatched[b])
        decreases dispatched[b].phase.Awaiting?, if dispatched[b].phase.Awaiting? then |dispatched[b].pre| - dispatched[b].phase.next else 0
      {
        Perform(b, AwaitPre);
      }
      InvHolds(runner, log);
    }

    /** The infer task, once every preprocess future of the batch is ready. */
    method InferTask(b: nat, ok: bool, accepted: bool)
      requires Valid() && b < |dispatched| && dispatched[b].phase == Awaiting(0)
      requires forall i :: 0 <= i < |dispatched[b].pre| ==> !dispatched[b].pre[i].Pending?
      modifies this`dispatched, this`log
      ensures Valid() && |dispatched| == |old(dispatched)|
      ensures forall c :: 0 <= c < |dispatched| && c != b ==> dispatched[c] == old(dispatched)[c]
      ensures var reached := ok && AllDone(old(dispatched)[b]);
        && (reached ==> dispatched[b] == old(dispatched)[b].(phase :=
              if accepted then PostQueued(runner.infer(old(dispatched)[b].planes)) else Lost))
        && (!reached ==>
              Ended(dispatched[b]) && forall i :: 0 <= i < |dispatched[b].results| ==> dispatched[b].results[i] == Some(Exception))
    {
      InvHolds(runner, log);
      AwaitAll(b);
      if dispatched[b].phase.Awaiting? {
        Perform(b, Infer(ok, accepted));
        InvHolds(runner, log);
      }
      if dispatched[b].phase.Failing? {
        CatchAll(b);
      }
    }

    /** A catch block: set_exception on each promise, an already satisfied one keeping what it has. */
    method CatchAll(b: nat)
      requires Valid() && b < |dispatched| && BatchInv(runner, dispatched[b]) && dispatched[b].phase == Failing(0)
      modifies this`dispatched, this`log
      ensures Valid() && |dispatched| == |old(dispatched)| && BatchInv(runner, dispatched[b])
      ensures forall c :: 0 <= c < |dispatched| && c != b ==> dispatched[c] == old(dispatched)[c]
      ensures dispatched[b].pre == old(dispatched)[b].pre && Ended(dispatched[b]) && !dispatched[b].phase.Lost?
      ensures |dispatched[b].results| == |old(dispatched)[b].results|
      ensures forall i :: 0 <= i < |dispatched[b].results| ==>
                dispatched[b].results[i] ==
                if old(dispatched)[b].results[i].Some? then old(dispatched)[b].results[i] else Some(Exception)
    {
      ghost var was := dispatched[b].results;
      while dispatched[b].phase.next < |dispatched[b].results|
        invariant Valid() && |dispatched| == |old(dispatched)|
        invariant dispatched[b].phase.Failing? && dispatched[b].pre == old(dispatched)[b].pre && dispatched[b].phase.next <= |was|
        invariant forall c :: 0 <= c < |dispatched| && c != b ==> dispatched[c] == old(dispatched)[c]
        invariant |dispatched[b].results| == |was|
        invariant forall i :: 0 <= i < |was| ==>
          dispatched[b].results[i] == if was[i].Some? || i >= dispatched[b].phase.next then was[i] else Some(Exception)
        decreases |was| - dispatched[b].phase.next
      {
        Perform(b, SetException);
      }
      InvHolds(runner, log);
    }

    /** The set_value loop; the set_value of slot `throwAt` throws, if there is one. */
    method DeliverLoop(b: nat, throwAt: nat)
      requires Valid() && b < |dispatched| && BatchInv(runner, dispatched[b])
      requires dispatched[b].phase.Delivering? && dispatched[b].phase.next == 0
      modifies this`dispatched, this`log
      ensures Valid() && |dispatched| == |old(dispatched)| && BatchInv(runner, dispatched[b])
      ensures forall c :: 0 <= c < |dispatched| && c != b ==> dispatched[c] == old(dispatched)[c]
      ensures var was, n := old(dispatched)[b], |old(dispatched)[b].results|;
        && |dispatched[b].results| == n <= |was.phase.answers|
        && (forall i :: 0 <= i < n ==>
              dispatched[b].results[i] == if i < throwAt then Some(Value(was.phase.answers[i])) else Option.None)
        && if throwAt < n then dispatched[b].phase == Failing(0) else Ended(dispatched[b]) && dispatched[b].phase.Delivering?
    {
      ghost var was, n := dispatched[b], |dispatched[b].results|;
      while dispatched[b].phase.Delivering? && dispatched[b].phase.next < |dispatched[b].results|
        invariant Valid() && |dispatched| == |old(dispatched)|
        invariant forall c :: 0 <= c < |dispatched| && c != b ==> dispatched[c] == old(dispatched)[c]
        invariant |dispatched[b].results| == n
        invariant if dispatched[b].phase.Delivering?
                  then dispatched[b].phase.answers == was.phase.answers && dispatched[b].phase.next <= throwAt && dispatched[b].phase.next <= n
                  else dispatched[b].phase == Failing(0) && throwAt < n
        invariant forall i :: 0 <= i < n ==>
          dispatched[b].results[i] == if i < Delivered(dispatched[b], throwAt) then Some(Value(was.phase.answers[i])) else Option.None
        decreases dispatched[b].phase.Delivering?, n - Delivered(dispatched[b], n)
      {
        Perform(b, SetValue(dispatched[b].phase.next != throwAt));
      }
      InvHolds(runner, log);
    }

    /** How many promises the loop has set; `stopped` if it was stopped by an exception. */
    ghost function Delivered(batch: Batch, stopped: nat): nat {
      if batch.phase.Delivering? then batch.phase.next else stopped
    }

    /** The post task: postprocess, then the set_value loop, then the catch block if either threw. */
    method PostTask(b: nat, ok: bool, throwAt: nat)
      requires Valid() && b < |dispatched| && dispatched[b].phase.PostQueued?
      modifies this`dispatched, this`log
      ensures Valid() && |dispatched| == |old(dispatched)|
      ensures forall c :: 0 <= c < |dispatched| && c != b ==> dispatched[c] == old(dispatched)[c]
      ensures |dispatched[b].results| == |old(dispatched)[b].results| && Ended(dispatched[b])
      ensures var answers := Answers(runner, old(dispatched)[b]);
        && |dispatched[b].results| <= |answers|
        && forall i :: 0 <= i < |dispatched[b].results| ==>
             dispatched[b].results[i] == Some(if ok && i < throwAt then Value(answers[i]) else Exception)
    {
      InvHolds(runner, log);
      Perform(b, Post(ok));
      InvHolds(runner, log);
      if ok {
        DeliverLoop(b, throwAt);
      }
      if dispatched[b].phase.Failing? {
        CatchAll(b);
      }
    }
  }
}
