/** include/queue/SPSCQueue.h: the lock-free single-producer single-consumer ring.

    `push` and `pop` are cut at their atomic operations. A load of the other side's index may be
    stale: it returns the value the index had after some earlier number of operations, but never an
    older one than the same thread has read before (coherence of one atomic variable). */
module SpscQueue {
  import opened Arithmetic

  datatype Producer<T> = Idle | Checked(item: T, next: nat) | Written(item: T, next: nat)

  datatype Consumer<T> = Idle | Checked | Read(item: T)

  /** `pushed` and `popped` record the operations whose closing store has happened; `headSeen` is the
      number of pops behind the newest head value the producer has loaded, `tailSeen` likewise. */
  datatype State<T> = State(
    capacity: nat, buffer: seq<T>, head: nat, tail: nat,
    pushed: seq<T>, popped: seq<T>, headSeen: nat, tailSeen: nat,
    producer: Producer<T>, consumer: Consumer<T>)

  datatype Event<T> =
    | PushLoad(item: T, pops: nat)  // load tail and head; the head value is the one after `pops` pops
    | PushWrite
    | PushStore
    | PopLoad(pushes: nat)          // load head and tail; the tail value is the one after `pushes` pushes
    | PopRead
    | PopStore

  function Mask(s: State, x: nat): nat
    requires s.capacity > 0
  {
    And(x, s.capacity - 1)
  }

  /** The value an index holds after n completed operations. */
  function IndexAfter(s: State, n: nat): nat
    requires s.capacity > 0
  {
    n % s.capacity
  }

  predicate Enabled<T>(s: State<T>, e: Event<T>) {
    s.capacity > 0 &&
    match e
    case PushLoad(_, pops) => s.producer.Idle? && s.headSeen <= pops <= |s.popped|
    case PushWrite => s.producer.Checked? && s.tail < |s.buffer|
    case PushStore => s.producer.Written?
    case PopLoad(pushes) => s.consumer.Idle? && s.tailSeen <= pushes <= |s.pushed|
    case PopRead => s.consumer.Checked? && s.head < |s.buffer|
    case PopStore => s.consumer.Read?
  }

  function Step<T>(s: State<T>, e: Event<T>): State<T> {
    if !Enabled(s, e) then s else
    match e
    case PushLoad(item, pops) =>
      var next := Mask(s, s.tail + 1);
      if next == IndexAfter(s, pops) then s.(headSeen := pops)  // full: push returns false
      else s.(headSeen := pops, producer := Producer.Checked(item, next))
    case PushWrite =>
      s.(buffer := s.buffer[s.tail := s.producer.item], producer := Written(s.producer.item, s.producer.next))
    case PushStore =>
      s.(tail := s.producer.next, pushed := s.pushed + [s.producer.item], producer := Producer.Idle)
    case PopLoad(pushes) =>
      if s.head == IndexAfter(s, pushes) then s.(tailSeen := pushes)  // empty: pop returns false
      else s.(tailSeen := pushes, consumer := Consumer.Checked)
    case PopRead => s.(consumer := Read(s.buffer[s.head]))
    case PopStore =>
      s.(head := Mask(s, s.head + 1), popped := s.popped + [s.consumer.item], consumer := Consumer.Idle)
  }

  function Exec<T>(s: State<T>, es: seq<Event<T>>): State<T> {
    if es == [] then s else Step(Exec(s, es[..|es| - 1]), es[|es| - 1])
  }

  ghost predicate Initial<T>(s: State<T>) {
    IsPow2(s.capacity) && |s.buffer| == s.capacity && s.head == s.tail == 0 && s.pushed == s.popped == []
    && s.headSeen == s.tailSeen == 0 && s.producer.Idle? && s.consumer.Idle?
  }

  /** How far the two sides are apart, in operations. */
  ghost predicate Distances<T>(s: State<T>) {
    && s.headSeen <= |s.popped| <= s.tailSeen <= |s.pushed| < s.headSeen + s.capacity
    && (!s.producer.Idle? ==> |s.pushed| + 1 < s.headSeen + s.capacity)
    && (!s.consumer.Idle? ==> |s.popped| < s.tailSeen)
  }

  /** The cells from head to tail hold exactly the items pushed and not yet popped, in order. */
  ghost predicate CellsHoldUnpopped<T>(s: State<T>) {
    && |s.buffer| == s.capacity > 0
    && s.head == |s.popped| % s.capacity && s.tail == |s.pushed| % s.capacity
    && forall j :: |s.popped| <= j < |s.pushed| ==> s.buffer[j % s.capacity] == s.pushed[j]
  }

  ghost predicate Inv<T>(s: State<T>) {
    && IsPow2(s.capacity)
    && Distances(s)
    && CellsHoldUnpopped(s)
    && s.popped <= s.pushed
    && (!s.producer.Idle? ==> s.producer.next == (|s.pushed| + 1) % s.capacity)
    && (s.producer.Written? ==> s.buffer[s.tail] == s.producer.item)
    && (s.consumer.Read? ==> s.consumer.item == s.pushed[|s.popped|])
  }

  /** Advancing an index through the mask is advancing the operation count. */
  lemma MaskAdvances(capacity: nat, n: nat)
    requires IsPow2(capacity)
    ensures And(n % capacity + 1, capacity - 1) == (n + 1) % capacity
  {
    var k: nat :| capacity == Pow2(k);
    MaskIsMod(n % capacity + 1, k);
    SuccessorMod(n, capacity);
  }

  lemma SuccessorMod(n: nat, m: nat)
    requires m > 0
    ensures (n % m + 1) % m == (n + 1) % m
  {
    var q, r := n / m, n % m;
    if r + 1 < m {
      ModUnique(r + 1, m, 0, r + 1);
      ModUnique(n + 1, m, q, r + 1);
    } else {
      ModUnique(r + 1, m, 1, 0);
      ModUnique(n + 1, m, q + 1, 0);
    }
  }

  /** Two counts less than a capacity apart share a cell only when they are equal. */
  lemma SameCell(capacity: nat, i: nat, j: nat)
    requires capacity > 0 && i <= j <= i + capacity
    ensures i % capacity == j % capacity <==> i == j || j == i + capacity
  {
    var q, r := i / capacity, i % capacity;
    assert i == q * capacity + r;
    if j == i + capacity {
      ModUnique(j, capacity, q + 1, r);
    } else if i % capacity == j % capacity {
      SmallMultiple(j / capacity - q, capacity, j - i);
    }
  }

  lemma PushKeepsInv<T>(s: State<T>, e: Event<T>)
    requires Inv(s) && (e.PushLoad? || e.PushWrite? || e.PushStore?)
    ensures Inv(Step(s, e))
  {
    if Enabled(s, e) {
      MaskAdvances(s.capacity, |s.pushed|);
      if e.PushLoad? {
        SameCell(s.capacity, e.pops, |s.pushed| + 1);
      }
      if e.PushWrite? {
        forall j | |s.popped| <= j < |s.pushed|
          ensures j % s.capacity != s.tail
        {
          SameCell(s.capacity, j, |s.pushed|);
        }
      }
    }
  }

  lemma PopKeepsInv<T>(s: State<T>, e: Event<T>)
    requires Inv(s) && (e.PopLoad? || e.PopRead? || e.PopStore?)
    ensures Inv(Step(s, e))
  {
    if Enabled(s, e) {
      MaskAdvances(s.capacity, |s.popped|);
      if e.PopLoad? {
        SameCell(s.capacity, |s.popped|, e.pushes);
      }
    }
  }

  lemma {:induction false} InvHolds<T>(s: State<T>, es: seq<Event<T>>)
    requires Inv(s)
    ensures Inv(Exec(s, es))
  {
    if es != [] {
      var e := es[|es| - 1];
      InvHolds(s, es[..|es| - 1]);
      if e.PushLoad? || e.PushWrite? || e.PushStore? {
        PushKeepsInv(Exec(s, es[..|es| - 1]), e);
      } else {
        PopKeepsInv(Exec(s, es[..|es| - 1]), e);
      }
    }
  }

  /** Every run refines a bounded FIFO. */
  lemma RefinesBoundedFifo<T>(init: State<T>, es: seq<Event<T>>)
    requires Initial(init)
    ensures var s := Exec(init, es);
      && s.popped <= s.pushed
      && |s.pushed| - |s.popped| <= s.capacity - 1
      && CellsHoldUnpopped(s)
  {
    InvHolds(init, es);
  }

  /** The producer's next write and the consumer's next read never meet in one cell, so the plain
      accesses to the buffer do not race. */
  lemma NeverTouchSameCell<T>(init: State<T>, es: seq<Event<T>>)
    requires Initial(init)
    ensures var s := Exec(init, es);
      !s.producer.Idle? && !s.consumer.Idle? ==>
        s.tail < |s.buffer| && s.head < |s.buffer| && s.tail != s.head
  {
    InvHolds(init, es);
    var s := Exec(init, es);
    if !s.producer.Idle? && !s.consumer.Idle? {
      SameCell(s.capacity, |s.popped|, |s.pushed|);
    }
  }

  /** A push or pop in flight is never stuck, whatever the other side is doing: its next access is within the buffer, a push ends
      with its item appended, and a pop with the oldest one taken. */
  lemma InFlightAdvances<T>(init: State<T>, es: seq<Event<T>>)
    requires Initial(init)
    ensures var s := Exec(init, es);
      && (s.producer.Checked? ==>
            && s.tail < |s.buffer| && Step(s, PushWrite).buffer == s.buffer[s.tail := s.producer.item]
            && Step(s, PushWrite).producer == Written(s.producer.item, s.producer.next))
      && (s.producer.Written? ==> Step(s, PushStore).pushed == s.pushed + [s.producer.item] && Step(s, PushStore).producer.Idle?)
      && (s.consumer.Checked? ==> |s.popped| < |s.pushed| && Step(s, PopRead).consumer == Read(s.pushed[|s.popped|]))
      && (s.consumer.Read? ==> Step(s, PopStore).popped == s.popped + [s.consumer.item] && Step(s, PopStore).consumer.Idle?)
  {
    InvHolds(init, es);
  }

  /** Whatever coherent values the loads return, fresh or stale: a push is refused exactly when, at the head it has loaded,
      capacity - 1 items are queued, and a pop exactly when none is at the tail it has loaded; later loads may be as stale. */
  lemma RefusalsAreExact<T>(init: State<T>, es: seq<Event<T>>, item: T, pops: nat, pushes: nat)
    requires Initial(init)
    ensures var s := Exec(init, es);
      && s.capacity > 0
      && (s.producer.Idle? && s.headSeen <= pops <= |s.popped| ==>
            Step(s, PushLoad(item, pops)).producer ==
            if |s.pushed| - pops == s.capacity - 1 then Producer.Idle else Producer.Checked(item, (|s.pushed| + 1) % s.capacity))
      && (s.consumer.Idle? && s.tailSeen <= pushes <= |s.pushed| ==>
            Step(s, PopLoad(pushes)).consumer == if pushes == |s.popped| then Consumer.Idle else Consumer.Checked)
      && (s.producer.Idle? && s.headSeen <= pops <= |s.popped| ==> Step(s, PushLoad(item, pops)).headSeen == pops)
      && (s.consumer.Idle? && s.tailSeen <= pushes <= |s.pushed| ==> Step(s, PopLoad(pushes)).tailSeen == pushes)
  {
    InvHolds(init, es);
    var s := Exec(init, es);
    if s.producer.Idle? && s.headSeen <= pops <= |s.popped| {
      PushLoadIs(s, item, pops);
    }
    if s.consumer.Idle? && s.tailSeen <= pushes <= |s.pushed| {
      SameCell(s.capacity, |s.popped|, pushes);
    }
  }

  lemma PushLoadIs<T>(s: State<T>, item: T, pops: nat)
    requires Inv(s) && s.producer.Idle? && s.headSeen <= pops <= |s.popped|
    ensures Step(s, PushLoad(item, pops)).producer ==
            if |s.pushed| - pops == s.capacity - 1 then Producer.Idle else Producer.Checked(item, (|s.pushed| + 1) % s.capacity)
  {
    MaskAdvances(s.capacity, |s.pushed|);
    SameCell(s.capacity, pops, |s.pushed| + 1);
  }

  lemma Exec3<T>(s: State<T>, a: Event<T>, b: Event<T>, c: Event<T>)
    ensures Exec(s, [a, b, c]) == Step(Step(Step(s, a), b), c)
  {
    assert [a, b, c][..2] == [a, b] && [a, b][..1] == [a] && [a][..0] == [];
    assert Exec(s, [a]) == Step(Exec(s, []), a);
    assert Exec(s, [a, b]) == Step(Exec(s, [a]), b);
  }

  lemma PushStepsEffect<T>(s: State<T>, item: T)
    requires Inv(s) && s.producer.Idle?
    ensures var loaded := s.(headSeen := |s.popped|);
      && Mask(s, s.tail + 1) == (|s.pushed| + 1) % s.capacity
      && (Mask(s, s.tail + 1) == s.head <==> |s.pushed| - |s.popped| == s.capacity - 1)
      && (Step(s, PushLoad(item, |s.popped|)).producer.Idle? <==> Mask(s, s.tail + 1) == s.head)
      && Step(Step(Step(s, PushLoad(item, |s.popped|)), PushWrite), PushStore) ==
         if Mask(s, s.tail + 1) == s.head then loaded
         else loaded.(buffer := s.buffer[s.tail := item], tail := Mask(s, s.tail + 1), pushed := s.pushed + [item])
  {
    MaskAdvances(s.capacity, |s.pushed|);
    SameCell(s.capacity, |s.popped|, |s.pushed| + 1);
  }

  lemma PopStepsEffect<T>(s: State<T>)
    requires Inv(s) && s.consumer.Idle?
    ensures var loaded := s.(tailSeen := |s.pushed|);
      && (s.head == s.tail <==> |s.pushed| == |s.popped|)
      && Step(Step(Step(s, PopLoad(|s.pushed|)), PopRead), PopStore) ==
         if s.head == s.tail then loaded
         else loaded.(head := Mask(s, s.head + 1), popped := s.popped + [s.buffer[s.head]])
  {
    SameCell(s.capacity, |s.popped|, |s.pushed|);
  }

  /** What the three steps of a push do to an idle ring. */
  lemma PushRun<T>(s: State<T>, item: T)
    requires Inv(s) && s.producer.Idle? && s.consumer.Idle?
    ensures var t := Exec(s, [PushLoad(item, |s.popped|), PushWrite, PushStore]);
      && Inv(t) && |s.popped| <= |s.pushed| && s.tail < |s.buffer|
      && (Mask(s, s.tail + 1) == s.head <==> |s.pushed| - |s.popped| == s.capacity - 1)
      && |s.pushed| - |s.popped| <= s.capacity - 1
      && (if Mask(s, s.tail + 1) == s.head then t == s.(headSeen := |s.popped|)
          else
            && t == s.(headSeen := |s.popped|, buffer := s.buffer[s.tail := item], tail := Mask(s, s.tail + 1), pushed := s.pushed + [item])
            && t.pushed[|t.popped|..] == s.pushed[|s.popped|..] + [item])
  {
    var es := [PushLoad(item, |s.popped|), PushWrite, PushStore];
    InvHolds(s, es);
    Exec3(s, es[0], es[1], es[2]);
    PushStepsEffect(s, item);
  }

  /** And those of a pop. */
  lemma PopRun<T>(s: State<T>)
    requires Inv(s) && s.producer.Idle? && s.consumer.Idle?
    ensures var t := Exec(s, [PopLoad(|s.pushed|), PopRead, PopStore]);
      && Inv(t)
      && t == if s.head == s.tail then s.(tailSeen := |s.pushed|)
              else s.(tailSeen := |s.pushed|, head := Mask(s, s.head + 1), popped := s.popped + [s.buffer[s.head]])
  {
    var es := [PopLoad(|s.pushed|), PopRead, PopStore];
    InvHolds(s, es);
    Exec3(s, es[0], es[1], es[2]);
    PopStepsEffect(s);
  }

  /** The cell at head holds the oldest queued item. */
  lemma HeadIsOldest<T>(s: State<T>)
    requires Inv(s)
    ensures |s.popped| <= |s.pushed| && s.head < |s.buffer|
    ensures s.head == s.tail <==> |s.pushed| == |s.popped|
    ensures s.head != s.tail ==> s.pushed[|s.popped|..] == [s.buffer[s.head]] + s.pushed[|s.popped| + 1..]
  {
    SameCell(s.capacity, |s.popped|, |s.pushed|);
    if s.head != s.tail {
      assert s.buffer[s.head] == s.pushed[|s.popped|];
    }
  }

  /** `size()`: a 64-bit wrapping subtraction, then the mask. */
  function Size(capacity: nat, head: nat, tail: nat): nat
    requires capacity > 0
  {
    And((tail - head) % WORD, capacity - 1)
  }

  /** Whatever two index values `size()` happens to load, it never reports more than `capacity()`;
      at the current indices it reports the number of queued items. */
  lemma SizeIsQueueLength<T>(init: State<T>, es: seq<Event<T>>, head: nat, tail: nat)
    requires Initial(init) && init.capacity <= Pow2(63)
    ensures Size(init.capacity, head, tail) <= init.capacity - 1
    ensures var s := Exec(init, es); Size(init.capacity, s.head, s.tail) == |s.pushed| - |s.popped|
  {
    InvHolds(init, es);
    ExecKeepsCapacity(init, es);
    SizeInRange(init.capacity, head, tail);
    SizeOfState(Exec(init, es));
  }

  lemma SizeInRange(c: nat, head: nat, tail: nat)
    requires IsPow2(c) && c <= Pow2(63)
    ensures Size(c, head, tail) <= c - 1
  {
    SizeIsDistance(c, head, tail);
  }

  lemma SizeOfState<T>(s: State<T>)
    requires Inv(s) && s.capacity <= Pow2(63)
    ensures Size(s.capacity, s.head, s.tail) == |s.pushed| - |s.popped| <= s.capacity - 1
  {
    SizeIsDistance(s.capacity, s.head, s.tail);
    CountDifference(s.capacity, |s.popped|, |s.pushed|);
  }

  lemma SizeIsDistance(c: nat, head: nat, tail: nat)
    requires IsPow2(c) && c <= Pow2(63)
    ensures Size(c, head, tail) == (tail - head) % c
  {
    var k: nat :| c == Pow2(k);
    ExponentBound(k);
    WrapThenMask(tail - head, k);
  }

  lemma CountDifference(c: nat, i: nat, j: nat)
    requires c > 0 && i <= j < i + c
    ensures (j % c - i % c) % c == j - i
  {
    var qi, qj := i / c, j / c;
    assert i == qi * c + i % c && j == qj * c + j % c;
    assert j % c - i % c == (qi - qj) * c + (j - i);
    ModUnique(j % c - i % c, c, qi - qj, j - i);
  }

  lemma ExponentBound(k: nat)
    requires Pow2(k) <= Pow2(63)
    ensures k <= 63
  {
    if k > 63 {
      Pow2Monotone(64, k);
      WordIsPow2();
    }
  }

  lemma {:induction false} ExecKeepsCapacity<T>(s: State<T>, es: seq<Event<T>>)
    ensures Exec(s, es).capacity == s.capacity
  {
    if es != [] {
      ExecKeepsCapacity(s, es[..|es| - 1]);
    }
  }

  /** The candidate after i rounds of the constructor's `new_capacity <<= 1`, in 64 bits. */
  function Doubled(i: nat): nat {
    Pow2(i) % WORD
  }

  /** The constructor's doubling loop can stop exactly for requests up to 2^63. */
  lemma DoublingStopsIff(request: nat)
    requires 0 < request < WORD
    ensures (exists i :: Doubled(i) >= request) <==> request <= Pow2(63)
  {
    WordIsPow2();
    if request <= Pow2(63) {
      ModUnique(Pow2(63), WORD, 0, Pow2(63));
      assert Doubled(63) >= request;
    }
    forall i: nat
      ensures Doubled(i) <= Pow2(63)
    {
      if i <= 63 {
        Pow2Monotone(i, 63);
        ModUnique(Pow2(i), WORD, 0, Pow2(i));
      } else {
        Pow2Monotone(64, i);
      }
    }
  }

  /** `capacity - 1` as a size_t. */
  function WrappedPred(capacity: nat): nat {
    (capacity + WORD - 1) % WORD
  }

  lemma WrappedPredOf(capacity: nat)
    requires capacity < WORD
    ensures WrappedPred(capacity) == if capacity > 0 then capacity - 1 else WORD - 1
  {
    if capacity > 0 {
      ModUnique(capacity + WORD - 1, WORD, 1, capacity - 1);
    } else {
      ModUnique(WORD - 1, WORD, 0, WORD - 1);
    }
  }

  /** Push's test for a full ring passes exactly when the capacity is not 1: a queue made with request 0 passes it and goes on
      to write cell 0 of an empty buffer. */
  lemma FirstPushAcceptedIff(capacity: nat)
    requires capacity < WORD && (capacity == 0 || IsPow2(capacity))
    ensures And(0 + 1, WrappedPred(capacity)) != 0 <==> capacity != 1
  {
    WrappedPredOf(capacity);
    if capacity > 1 {
      var k: nat :| capacity == Pow2(k);
    }
  }

  /** One more doubling of a candidate that is still too small does not wrap. */
  lemma DoublingFits(k: nat, request: nat)
    requires Pow2(k) < request <= Pow2(63)
    ensures (2 * Pow2(k)) % WORD == Pow2(k + 1)
  {
    WordIsPow2();
    ModUnique(2 * Pow2(k), WORD, 0, 2 * Pow2(k));
  }

  ghost predicate IsLeast(request: nat, c: nat) {
    IsPow2(c) && request <= c && forall k: nat :: request <= Pow2(k) ==> c <= Pow2(k)
  }

  lemma Doublings(k: nat, request: nat)
    requires k > 0 ==> Pow2(k - 1) < request
    requires request <= Pow2(k)
    ensures IsLeast(request, Pow2(k))
  {
    LeastPow2(request, k);
  }

  lemma AlreadyPow2(request: nat)
    requires 0 < request < WORD && And(request, WrappedPred(request)) == 0
    ensures IsLeast(request, request)
  {
    WrappedPredOf(request);
    PredMaskZero(request);
  }

  /** The adjustment of the requested capacity. */
  method RoundedUp(request: nat) returns (c: nat)
    requires request <= Pow2(63)
    ensures request > 0 ==> IsLeast(request, c)
    ensures request == 0 ==> c == 0
  {
    WordIsPow2();
    c := request;
    if And(request, WrappedPred(request)) != 0 {
      c := 1;
      ghost var k: nat := 0;
      while c < request
        invariant c == Pow2(k) && (k > 0 ==> Pow2(k - 1) < request)
        decreases request - c
      {
        DoublingFits(k, request);
        c := (2 * c) % WORD;
        k := k + 1;
      }
      ZeroMask();
      Doublings(k, request);
    } else if request > 0 {
      AlreadyPow2(request);
    }
  }

  lemma ZeroMask()
    ensures And(0, WrappedPred(0)) == 0
  {
  }

  class SPSCQueue<T(0)> {
    const capacity: nat
    const buffer: array<T>
    var head: nat
    var tail: nat
    ghost var ring: State<T>

    ghost predicate Valid()
      reads this, buffer
    {
      && Inv(ring) && ring.producer.Idle? && ring.consumer.Idle?
      && ring.capacity == capacity == buffer.Length && ring.buffer == buffer[..]
      && ring.head == head && ring.tail == tail
    }

    ghost function Contents(): seq<T>
      reads this, buffer
      requires Valid()
    {
      ring.pushed[|ring.popped|..]
    }

    /** The least power of two not below the request; a request of 0 is taken as it is. */
    constructor (request: nat)
      requires request <= Pow2(63)  // otherwise the loop does not stop: DoublingStopsIff
      ensures request > 0 ==> Valid() && Contents() == [] && fresh(buffer) && Initial(ring)
      ensures request > 0 ==> IsLeast(request, capacity)
      ensures request == 0 ==> capacity == buffer.Length == head == tail == 0
    {
      var c := RoundedUp(request);
      capacity := c;
      buffer := new T[c];
      head, tail := 0, 0;
      new;
      ring := State(capacity, buffer[..], 0, 0, [], [], 0, 0, Producer.Idle, Consumer.Idle);
    }

    method Push(item: T) returns (ok: bool)
      requires Valid()
      modifies this`tail, this`ring, buffer
      ensures Valid()
      ensures ring == Exec(old(ring), [PushLoad(item, |old(ring).popped|), PushWrite, PushStore])
      ensures ok == (|old(Contents())| < capacity - 1)
      ensures Contents() == if ok then old(Contents()) + [item] else old(Contents())
    {
      ghost var final := Exec(ring, [PushLoad(item, |ring.popped|), PushWrite, PushStore]);
      PushRun(ring, item);
      var next := And(tail + 1, capacity - 1);
      ok := next != head;
      if ok {
        buffer[tail] := item;
        tail := next;
      }
      ring := final;
    }

    method Size() returns (n: nat)
      requires Valid() && capacity <= Pow2(63)
      ensures n == |Contents()| <= capacity - 1
    {
      SizeOfState(ring);
      n := And((tail - head) % WORD, capacity - 1);
    }

    /** `current` is the caller's variable, left alone when the queue is empty. */
    method Pop(current: T) returns (ok: bool, item: T)
      requires Valid()
      modifies this`head, this`ring
      ensures Valid()
      ensures ring == Exec(old(ring), [PopLoad(|old(ring).pushed|), PopRead, PopStore])
      ensures ok == (old(Contents()) != [])
      ensures ok ==> old(Contents()) == [item] + Contents()
      ensures !ok ==> Contents() == old(Contents()) && item == current
    {
      ghost var final := Exec(ring, [PopLoad(|ring.pushed|), PopRead, PopStore]);
      PopRun(ring);
      HeadIsOldest(ring);
      ok, item := head != tail, current;
      if ok {
        item := buffer[head];
        head := And(head + 1, capacity - 1);
      }
      ring := final;
    }
  }

  lemma LeastPow2(request: nat, k: nat)
    requires k > 0 ==> Pow2(k - 1) < request
    ensures forall j: nat :: request <= Pow2(j) ==> Pow2(k) <= Pow2(j)
  {
    forall j: nat | request <= Pow2(j)
      ensures Pow2(k) <= Pow2(j)
    {
      if j < k {
        Pow2Monotone(j, k - 1);
      } else {
        Pow2Monotone(k, j);
      }
    }
  }
}
