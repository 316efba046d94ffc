/** include/thread/ThreadSafeQueue.h: a bounded FIFO that can be closed. A call that has to wait is two locked sections:
    the one that finds the queue full or empty, and the one after its wait returned. */
module ThreadSafeQueue {
  /** `accepted` and `returned` record the values pushed and popped; `pushers` are the values of the waiting pushes and
      `poppers` the number of waiting pops. */
  datatype State<T> = State(
    capacity: nat, queue: seq<T>, closed: bool,
    accepted: seq<T>, returned: seq<T>, pushers: multiset<T>, poppers: nat)

  datatype Event<T> = Push(x: T) | PushWoken(x: T) | Pop | PopWoken | TryPop | Close

  datatype Outcome<T> = NotEnabled | Waits | Refused | Accepted | Got(x: T) | Closed

  const UNBOUNDED := 0

  ghost predicate Enabled<T>(s: State<T>, e: Event<T>) {
    match e
    case PushWoken(x) => x in s.pushers && (|s.queue| < s.capacity || s.closed)
    case PopWoken => s.poppers > 0 && (s.queue != [] || s.closed)
    case _ => true
  }

  /** The wait's predicate is tested once before waiting, so a closed full queue refuses at once. */
  function Appended<T>(s: State<T>, x: T): (State<T>, Outcome<T>) {
    if s.closed then (s, Refused) else (s.(queue := s.queue + [x], accepted := s.accepted + [x]), Accepted)
  }

  function Taken<T>(s: State<T>): (State<T>, Outcome<T>)
    requires s.queue != []
  {
    (s.(queue := s.queue[1..], returned := s.returned + [s.queue[0]]), Got(s.queue[0]))
  }

  ghost function Next<T>(s: State<T>, e: Event<T>): (State<T>, Outcome<T>) {
    if !Enabled(s, e) then (s, NotEnabled) else
    match e
    case Push(x) =>
      if s.capacity != UNBOUNDED && |s.queue| == s.capacity && !s.closed then (s.(pushers := s.pushers + multiset{x}), Waits)
      else Appended(s, x)
    case PushWoken(x) => Appended(s.(pushers := s.pushers - multiset{x}), x)
    case Pop =>
      if s.queue != [] then Taken(s) else if s.closed then (s, Refused) else (s.(poppers := s.poppers + 1), Waits)
    case PopWoken =>
      var s' := s.(poppers := s.poppers - 1);
      if s.queue == [] then (s', Refused) else Taken(s')
    case TryPop => if s.queue == [] then (s, Refused) else Taken(s)
    case Close => (s.(closed := true), Closed)
  }

  ghost function Step<T>(s: State<T>, e: Event<T>): State<T> {
    Next(s, e).0
  }

  ghost function Exec<T>(s: State<T>, es: seq<Event<T>>): State<T> {
    if es == [] then s else Step(Exec(s, es[..|es| - 1]), es[|es| - 1])
  }

  function Start<T>(capacity: nat): State<T> {
    State(capacity, [], false, [], [], multiset{}, 0)
  }

  ghost predicate Inv<T>(s: State<T>) {
    && s.returned + s.queue == s.accepted
    && (s.capacity != UNBOUNDED ==> |s.queue| <= s.capacity)
    && (s.capacity == UNBOUNDED ==> s.pushers == multiset{})
  }

  lemma StepKeepsInv<T>(s: State<T>, e: Event<T>)
    requires Inv(s)
    ensures Inv(Step(s, e))
  {
    if s.queue != [] {
      assert (s.returned + [s.queue[0]]) + s.queue[1..] == s.returned + s.queue;
    }
    if e.Push? || e.PushWoken? {
      assert s.returned + (s.queue + [e.x]) == (s.returned + s.queue) + [e.x];
    }
  }

  lemma {:induction false} InvHolds<T>(capacity: nat, es: seq<Event<T>>)
    ensures Inv(Exec(Start(capacity), es)) && Exec(Start<T>(capacity), es).capacity == capacity
  {
    if es != [] {
      InvHolds(capacity, es[..|es| - 1]);
      StepKeepsInv(Exec(Start(capacity), es[..|es| - 1]), es[|es| - 1]);
    }
  }

  /** In every run the returned values are a prefix of the accepted ones, the queue is the rest, and a bounded queue never
      outgrows its capacity, also when Close wakes the waiters. */
  lemma BoundedFifo<T>(capacity: nat, es: seq<Event<T>>)
    ensures var s := Exec(Start<T>(capacity), es);
      && s.returned <= s.accepted && s.queue == s.accepted[|s.returned|..]
      && (capacity != UNBOUNDED ==> |s.queue| <= capacity)
  {
    InvHolds(capacity, es);
    var s := Exec(Start<T>(capacity), es);
    assert (s.returned + s.queue)[|s.returned|..] == s.queue;
  }

  /** A push is refused exactly when the queue is closed, and a pop, of either kind, only hands out the oldest accepted
      value; a blocking pop is refused only when the queue is closed and empty. */
  lemma OutcomesExact<T>(capacity: nat, es: seq<Event<T>>, e: Event<T>)
    requires Enabled(Exec(Start<T>(capacity), es), e)
    ensures var s := Exec(Start<T>(capacity), es); var o := Next(s, e).1;
      && (e.Push? || e.PushWoken? ==> (o.Refused? <==> s.closed) && (o.Waits? ==> |s.queue| == capacity != UNBOUNDED))
      && (e.Pop? || e.PopWoken? ==> (o.Refused? <==> s.closed && s.queue == []) && (o.Waits? <==> !s.closed && s.queue == []))
      && (e.TryPop? ==> (o.Refused? <==> s.queue == []) && !o.Waits?)
      && (o.Got? ==> |s.returned| < |s.accepted| && o.x == s.accepted[|s.returned|])
  {
    InvHolds(capacity, es);
    var s := Exec(Start<T>(capacity), es);
    if s.queue != [] {
      assert (s.returned + s.queue)[|s.returned|] == s.queue[0];
    }
  }

  /** A waiting push gets in exactly when there is room, and is refused exactly when the queue is closed; a waiting pop gets the
      oldest value exactly when there is one, and is refused exactly when the queue is closed without any. Otherwise they wait on. */
  lemma WaitersWoken<T>(capacity: nat, es: seq<Event<T>>, x: T)
    ensures var s := Exec(Start<T>(capacity), es);
      && (x in s.pushers ==>
            Next(s, PushWoken(x)).1 == if s.closed then Refused else if |s.accepted| - |s.returned| < capacity then Accepted else NotEnabled)
      && (s.poppers > 0 ==>
            Next(s, PopWoken).1 == if |s.returned| < |s.accepted| then Got(s.accepted[|s.returned|]) else if s.closed then Refused else NotEnabled)
  {
    InvHolds(capacity, es);
    var s := Exec(Start<T>(capacity), es);
    assert |s.accepted| == |s.returned| + |s.queue|;
    if s.queue != [] {
      assert (s.returned + s.queue)[|s.returned|] == s.queue[0];
    }
  }

  /** No wake-up is lost: after an accepted push a waiting pop can return with a value, after a pop a waiting push is accepted,
      and after Close every waiter can leave. */
  lemma WaitersCanLeave<T>(capacity: nat, es: seq<Event<T>>, e: Event<T>, x: T)
    ensures var s := Exec(Start<T>(capacity), es); var (s', o) := Next(s, e);
      && (o.Accepted? && s'.poppers > 0 ==> Next(s', PopWoken).1.Got?)
      && (o.Got? && x in s'.pushers && !s.closed ==> Next(s', PushWoken(x)).1.Accepted?)
      && (o.Closed? && s'.poppers > 0 ==> Next(s', PopWoken).1.Got? || Next(s', PopWoken).1.Refused?)
      && (o.Closed? && x in s'.pushers ==> Next(s', PushWoken(x)).1.Refused?)
  {
    InvHolds(capacity, es);
    var s := Exec(Start<T>(capacity), es);
    StepKeepsInv(s, e);
    if Next(s, e).1.Got? && x in Step(s, e).pushers {
      assert |Step(s, e).queue| == |s.queue| - 1 && capacity != UNBOUNDED;
    }
  }

  /** Once closed, a queue accepts nothing more and stays closed, and no call that starts or wakes waits again. */
  lemma {:induction false} ClosedForGood<T>(s: State<T>, es: seq<Event<T>>)
    requires s.closed
    ensures Exec(s, es).closed && Exec(s, es).accepted == s.accepted
    ensures Exec(s, es).pushers <= s.pushers && Exec(s, es).poppers <= s.poppers
  {
    if es != [] {
      ClosedForGood(s, es[..|es| - 1]);
      ClosedStep(Exec(s, es[..|es| - 1]), es[|es| - 1]);
    }
  }

  lemma ClosedStep<T>(s: State<T>, e: Event<T>)
    requires s.closed
    ensures Step(s, e).closed && Step(s, e).accepted == s.accepted
    ensures Step(s, e).pushers <= s.pushers && Step(s, e).poppers <= s.poppers
  {
  }

  /** Everything accepted stays poppable: as many pops as there are queued values return exactly those, in order. */
  lemma {:induction false} DrainsCompletely<T>(s: State<T>, n: nat)
    requires n <= |s.queue|
    ensures Exec(s, seq(n, _ => Pop)).returned == s.returned + s.queue[..n]
    ensures Exec(s, seq(n, _ => Pop)).queue == s.queue[n..]
  {
    var es := seq(n, _ => Event<T>.Pop);
    if n > 0 {
      DrainsCompletely(s, n - 1);
      assert es[..n - 1] == seq(n - 1, _ => Event<T>.Pop);
    }
  }

  class ThreadSafeQueue<T(!new)> {
    const capacity: nat
    var queue: seq<T>
    var isClose: bool
    ghost var log: seq<Event<T>>

    ghost function Current(): State<T>
      reads this
    {
      Exec(Start(capacity), log)
    }

    ghost predicate Valid()
      reads this
    {
      Current().queue == queue && Current().closed == isClose && Current().capacity == capacity
    }

    constructor (capacity: nat)
      ensures Valid() && this.capacity == capacity && log == []
    {
      this.capacity, queue, isClose, log := capacity, [], false, [];
    }

    ghost method Record(e: Event<T>)
      modifies this`log
      ensures log == old(log) + [e] && Current() == Step(old(Current()), e)
    {
      assert (log + [e])[..|log|] == log;
      log := log + [e];
    }

    /** Push up to its wait, or to its end when it need not wait; `woken`: from the return of its wait on. */
    method Push(x: T, woken: bool) returns (waits: bool, ok: bool)
      requires Valid() && (woken ==> x in Current().pushers && (|queue| < capacity || isClose))
      modifies this
      ensures Valid() && log == old(log) + [if woken then PushWoken(x) else Event.Push(x)] && isClose == old(isClose)
      ensures waits == (!woken && capacity != UNBOUNDED && |old(queue)| == capacity && !isClose)
      ensures ok == (!waits && !isClose)
      ensures queue == if ok then old(queue) + [x] else old(queue)
    {
      Record(if woken then PushWoken(x) else Event.Push(x));
      waits := !woken && capacity != UNBOUNDED && |queue| == capacity && !(|queue| < capacity || isClose);
      ok := false;
      if !waits && !isClose {
        queue := queue + [x];
        ok := true;
      }
    }

    method Pop(current: T, woken: bool) returns (waits: bool, ok: bool, x: T)
      requires Valid() && (woken ==> Current().poppers > 0 && (queue != [] || isClose))
      modifies this
      ensures Valid() && log == old(log) + [if woken then PopWoken else Event.Pop] && isClose == old(isClose)
      ensures waits == (!woken && old(queue) == [] && !isClose)
      ensures ok == (old(queue) != [])
      ensures if ok then old(queue) == [x] + queue else queue == old(queue) && x == current
    {
      Record(if woken then PopWoken else Event.Pop);
      waits, ok, x := false, false, current;
      if |queue| == 0 {
        waits := !woken && !isClose;
      } else {
        x, ok := queue[0], true;
        queue := queue[1..];
      }
    }

    method TryPop(current: T) returns (ok: bool, x: T)
      requires Valid()
      modifies this
      ensures Valid() && log == old(log) + [Event.TryPop] && isClose == old(isClose)
      ensures ok == (old(queue) != [])
      ensures if ok then old(queue) == [x] + queue else queue == old(queue) && x == current
    {
      Record(Event.TryPop);
      if |queue| == 0 {
        return false, current;
      }
      ok, x := true, queue[0];
      queue := queue[1..];
    }

    method Close()
      requires Valid()
      modifies this
      ensures Valid() && log == old(log) + [Event.Close] && isClose && queue == old(queue)
    {
      Record(Event.Close);
      isClose := true;
    }
  }
}
