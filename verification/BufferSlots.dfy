/** The device pools as the schedulers use them: slots by number instead of by address, together with what they hold and
    with the release callbacks that have still to run (include/TensorBuffer.h). */
module BufferSlots {
  import opened Arithmetic
  import opened Gathering
  import TensorBufferPool

  /** `free` is the pool's queue. A slot is `owed` once for each release callback that will return it, and `lost` when
      nothing will. Slots in a client's hands are in none of these. */
  datatype Slots<T> = Slots(memory: seq<T>, free: seq<nat>, owed: multiset<nat>, lost: multiset<nat>)

  function AllFree<T>(memory: seq<T>): Slots<T> {
    Slots(memory, Numbers(|memory|), multiset{}, multiset{})
  }

  predicate Available<T>(s: Slots<T>) {
    s.free != [] && s.free[0] < |s.memory|
  }

  function Taken<T>(s: Slots<T>): Slots<T>
    requires s.free != []
  {
    s.(free := s.free[1..])
  }

  function Filled<T>(s: Slots<T>, k: nat, content: T): Slots<T>
    requires k < |s.memory|
  {
    s.(memory := s.memory[k := content])
  }

  function Returned<T>(s: Slots<T>, k: nat): Slots<T> {
    s.(free := s.free + [k])
  }

  function Owing<T>(s: Slots<T>, k: nat, times: nat): Slots<T> {
    s.(owed := s.owed[k := s.owed[k] + times])
  }

  function Lost<T>(s: Slots<T>, k: nat): Slots<T> {
    s.(lost := s.lost + multiset{k})
  }

  /** A release callback runs. */
  function Paid<T>(s: Slots<T>, k: nat): Slots<T>
    requires k in s.owed
  {
    Returned(s.(owed := s.owed - multiset{k}), k)
  }

  /** Every slot is free, owed, held by a client or lost, and only one of these, and only once. */
  ghost predicate Conserved<T>(s: Slots<T>, held: multiset<nat>) {
    multiset(s.free) + s.owed + held + s.lost == multiset(Numbers(|s.memory|))
  }

  /** What Conserved leaves when slots may be returned more than once. */
  ghost predicate InRange<T>(s: Slots<T>, held: multiset<nat>) {
    && (forall k :: k in s.free ==> k < |s.memory|)
    && (forall k :: k in s.owed ==> k < |s.memory|)
    && (forall k :: k in held ==> k < |s.memory|)
  }

  lemma {:induction false} NumbersOnce(n: nat, k: nat)
    ensures multiset(Numbers(n))[k] == if k < n then 1 else 0
  {
    if n > 0 {
      NumbersOnce(n - 1, k);
      assert Numbers(n) == Numbers(n - 1) + [n - 1];
    }
  }

  /** With the slots conserved, one that is free is in nobody's hands, and one that is held is held once. */
  lemma ConservedApart<T>(s: Slots<T>, held: multiset<nat>, k: nat)
    requires Conserved(s, held)
    ensures multiset(s.free)[k] + s.owed[k] + held[k] + s.lost[k] == if k < |s.memory| then 1 else 0
    ensures |s.free| + |s.owed| + |held| + |s.lost| == |s.memory|
  {
    NumbersOnce(|s.memory|, k);
    assert (multiset(s.free) + s.owed + held + s.lost)[k] == multiset(Numbers(|s.memory|))[k];
    assert |multiset(Numbers(|s.memory|))| == |s.memory|;
  }

  lemma ConservedInRange<T>(s: Slots<T>, held: multiset<nat>)
    requires Conserved(s, held)
    ensures InRange(s, held)
  {
    forall k | k in s.free || k in s.owed || k in held
      ensures k < |s.memory|
    {
      assert k in s.free <==> k in multiset(s.free);
      ConservedApart(s, held, k);
    }
  }

  lemma TakenConserves<T>(s: Slots<T>, held: multiset<nat>)
    requires Conserved(s, held) && s.free != []
    ensures Conserved(Taken(s), held + multiset{s.free[0]})
    ensures s.free[0] < |s.memory| && s.free[0] !in held
  {
    assert s.free == [s.free[0]] + s.free[1..];
    ConservedApart(s, held, s.free[0]);
  }

  lemma ReturnedConserves<T>(s: Slots<T>, held: multiset<nat>, k: nat)
    requires Conserved(s, held + multiset{k})
    ensures Conserved(Returned(s, k), held)
    ensures Conserved(Owing(s, k, 1), held)
    ensures Conserved(Lost(s, k), held)
  {
    assert Owing(s, k, 1).owed == s.owed + multiset{k};
  }

  lemma PaidConserves<T>(s: Slots<T>, held: multiset<nat>, k: nat)
    requires Conserved(s, held) && k in s.owed
    ensures Conserved(Paid(s, k), held)
  {
    assert s.owed == (s.owed - multiset{k}) + multiset{k};
  }

  // ---------- inference ----------

  /** How an infer task ends: with an exception before its input slot is returned (and before or after an output slot was
      taken), with one after that (and before or after the release callback of the output slot was installed), with the
      post executor refusing the output, or with the output handed over. */
  datatype InferEnd = Threw(took: bool) | ThrewLate(lost: bool) | Refused | Accepted

  predicate TakesOutput(end: InferEnd) {
    end.Threw? ==> end.took
  }

  /** The input pool after an infer task that read slot k. */
  function InputAfter<T>(s: Slots<T>, k: nat, end: InferEnd): Slots<T> {
    if end.Threw? then Lost(s, k) else Returned(s, k)
  }

  /** The output pool after an infer task that computed `features`. An output that is not handed over dies with its task,
      which runs its callback once. */
  function OutputAfter<T>(s: Slots<T>, end: InferEnd, features: T): (after: Slots<T>)
    requires TakesOutput(end) ==> Available(s)
    ensures after.memory == if TakesOutput(end) then s.memory[s.free[0] := features] else s.memory
  {
    if !TakesOutput(end) then s
    else
      var k := s.free[0];
      var t := Filled(Taken(s), k, features);
      match end
      case Threw(_) => Lost(t, k)
      case ThrewLate(lost) => if lost then Lost(t, k) else Owing(t, k, 1)
      case Refused => Owing(t, k, 1)
      case Accepted => t
  }

  /** The output pool after a postprocess that made `copies` copies of the tensor in slot k: they and the original each
      run the release callback. */
  function OutputRead<T>(s: Slots<T>, k: nat, copies: nat): Slots<T> {
    Owing(s, k, 1 + copies)
  }

  lemma InputAfterConserves<T>(s: Slots<T>, held: multiset<nat>, k: nat, end: InferEnd)
    requires Conserved(s, held + multiset{k})
    ensures Conserved(InputAfter(s, k, end), held)
  {
    ReturnedConserves(s, held, k);
  }

  /** An output pool in use: `pooled` if inference uses it, `once` if each of its slots is returned only once. */
  ghost predicate OutputsInv<T>(pooled: bool, once: bool, s: Slots<T>, held: multiset<nat>) {
    && InRange(s, held)
    && (once ==> Conserved(s, held))
    && (!pooled ==> s.owed == multiset{} && held == multiset{})
  }

  lemma TakenInRange<T>(s: Slots<T>, held: multiset<nat>)
    requires InRange(s, held) && Available(s)
    ensures InRange(Taken(s), held + multiset{s.free[0]})
  {
    var k, t := s.free[0], Taken(s);
    forall j | j in t.free || j in held + multiset{k}
      ensures j < |s.memory|
    {
      assert j in s.free || j in held || j == k;
    }
  }

  lemma ReturnedInRange<T>(s: Slots<T>, held: multiset<nat>, k: nat)
    requires InRange(s, held + multiset{k})
    ensures InRange(Lost(s, k), held)
    ensures InRange(s, held)
    ensures forall times: nat :: InRange(Owing(s, k, times), held)
  {
    forall j | j in held || j == k
      ensures j < |s.memory|
    {
      assert j in held + multiset{k};
    }
  }

  lemma OutputAfterKeepsInv<T>(once: bool, s: Slots<T>, held: multiset<nat>, end: InferEnd, features: T)
    requires OutputsInv(true, once, s, held) && (TakesOutput(end) ==> Available(s))
    ensures OutputsInv(true, once, OutputAfter(s, end, features),
                       if end.Accepted? then held + multiset{s.free[0]} else held)
  {
    if TakesOutput(end) {
      var k, t := s.free[0], Filled(Taken(s), s.free[0], features);
      TakenInRange(s, held);
      assert InRange(t, held + multiset{k});
      ReturnedInRange(t, held, k);
      if once {
        TakenConserves(s, held);
        assert Conserved(t, held + multiset{k});
        ReturnedConserves(t, held, k);
      }
    }
  }

  lemma OutputReadKeepsInv<T>(once: bool, s: Slots<T>, held: multiset<nat>, k: nat, copies: nat)
    requires OutputsInv(true, once, s, held + multiset{k}) && (once ==> copies == 0)
    ensures OutputsInv(true, once, OutputRead(s, k, copies), held)
  {
    ReturnedInRange(s, held, k);
    if once {
      ReturnedConserves(s, held, k);
    }
  }

  lemma PaidKeepsInv<T>(pooled: bool, once: bool, s: Slots<T>, held: multiset<nat>, k: nat)
    requires OutputsInv(pooled, once, s, held) && k in s.owed
    ensures OutputsInv(pooled, once, Paid(s, k), held)
  {
    if once {
      PaidConserves(s, held, k);
    }
  }

  // ---------- slots that a task takes and returns itself ----------

  /** How a postprocess ends: with an exception (before or after it took a filter slot), or with answers. One that finds nothing
      returns its answers early and keeps its slot, like one that throws while it has it. */
  datatype PostEnd = PostThrew(took: bool) | Answered(found: bool)

  predicate TakesFilter(end: PostEnd) {
    end.PostThrew? ==> end.took
  }

  /** How many filter slots there still are. */
  function FiltersAfter(n: nat, end: PostEnd): nat
    requires TakesFilter(end) ==> n > 0
  {
    if TakesFilter(end) && end != Answered(true) then n - 1 else n
  }

  // ---------- held by many clients ----------

  /** Two clients never hold the same slot. */
  lemma HeldApart<T, A>(s: Slots<T>, holds: A -> multiset<nat>, clients: seq<A>, i: nat, j: nat, k: nat)
    requires Conserved(s, Gather(holds, clients)) && i < |clients| && j < |clients| && i != j && k in holds(clients[i])
    ensures k !in holds(clients[j])
  {
    ConservedApart(s, Gather(holds, clients), k);
    if i < j {
      GatherTwo(holds, clients, i, j);
    } else {
      GatherTwo(holds, clients, j, i);
    }
    assert (holds(clients[i]) + holds(clients[j]))[k] <= Gather(holds, clients)[k];
  }

  // ---------- slots are the pool's pointers ----------

  function Addresses(base: nat, ele: nat, slots: seq<nat>): seq<nat> {
    seq(|slots|, i requires 0 <= i < |slots| => TensorBufferPool.SlotAddress(base, ele, slots[i]))
  }

  /** The pool whose queue holds the addresses of the free slots hands out and takes back the addresses of the slots that
      Taken and Returned move. */
  lemma SlotsArePointers<T>(s: Slots<T>, p: TensorBufferPool.Pool, k: nat)
    requires p.base > 0 && p.ele > 0 && !p.closed && p.capacity == |s.memory| && p.total == p.capacity * p.ele
    requires p.free == Addresses(p.base, p.ele, s.free)
    ensures s.free != [] ==>
      var (q, ptr) := TensorBufferPool.Acquired(p);
      ptr == TensorBufferPool.SlotAddress(p.base, p.ele, s.free[0]) && q.free == Addresses(p.base, p.ele, Taken(s).free)
    ensures k < |s.memory| ==>
      TensorBufferPool.Released(p, TensorBufferPool.SlotAddress(p.base, p.ele, k))
      == TensorBufferPool.Back(p.(free := Addresses(p.base, p.ele, Returned(s, k).free)))
  {
    if k < |s.memory| {
      assert TensorBufferPool.IsSlot(p, TensorBufferPool.SlotAddress(p.base, p.ele, k));
      TensorBufferPool.OwnsExactlyTheSlots(p, TensorBufferPool.SlotAddress(p.base, p.ele, k));
      assert Addresses(p.base, p.ele, s.free) + [TensorBufferPool.SlotAddress(p.base, p.ele, k)]
          == Addresses(p.base, p.ele, s.free + [k]);
    }
  }
}
