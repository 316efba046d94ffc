/** include/device/InferTensorBufferPool.h: equal slots carved out of one device allocation and lent out through a
    FIFO of free pointers. Address 0 is nullptr. */
module TensorBufferPool {
  import opened Arithmetic

  datatype Pool = Pool(base: nat, total: nat, ele: nat, capacity: nat, free: seq<nat>, closed: bool)

  /** The product size_t computes for total_bytes_. */
  function TotalBytes(capacity: nat, ele: nat): nat {
    capacity * ele % WORD
  }

  function SlotAddress(base: nat, ele: nat, i: nat): nat {
    base + i * ele
  }

  function Slots(base: nat, ele: nat, capacity: nat): seq<nat> {
    seq(capacity, (i: nat) => SlotAddress(base, ele, i))
  }

  function Opened(base: nat, ele: nat, capacity: nat): Pool {
    Pool(base, TotalBytes(capacity, ele), ele, capacity, Slots(base, ele, capacity), false)
  }

  predicate Owns(p: Pool, ptr: nat)
    requires p.ele > 0
  {
    p.base <= ptr < p.base + p.total && (ptr - p.base) % p.ele == 0
  }

  ghost predicate IsSlot(p: Pool, ptr: nat) {
    exists i :: 0 <= i < p.capacity && ptr == SlotAddress(p.base, p.ele, i)
  }

  /** owns() accepts the start of every slot and nothing else. */
  lemma OwnsExactlyTheSlots(p: Pool, ptr: nat)
    requires p.ele > 0 && p.total == p.capacity * p.ele
    ensures Owns(p, ptr) <==> IsSlot(p, ptr)
  {
    if Owns(p, ptr) {
      var i := (ptr - p.base) / p.ele;
      assert ptr - p.base == i * p.ele;
      if i >= p.capacity {
        MulMonotone(p.capacity, i, p.ele);
      }
      assert ptr == SlotAddress(p.base, p.ele, i);
    }
    if IsSlot(p, ptr) {
      var i :| 0 <= i < p.capacity && ptr == SlotAddress(p.base, p.ele, i);
      MulMonotone(i + 1, p.capacity, p.ele);
      assert (i + 1) * p.ele == i * p.ele + p.ele;
      MultipleMod(i, p.ele);
    }
  }

  /** Different slots share no byte. */
  lemma SlotsDisjoint(base: nat, ele: nat, i: nat, j: nat)
    requires i < j
    ensures SlotAddress(base, ele, i) + ele <= SlotAddress(base, ele, j)
  {
    MulMonotone(i + 1, j, ele);
    assert (i + 1) * ele == i * ele + ele;
  }

  /** Every pointer the constructor queues passes owns() exactly when the byte count fits 64 bits. */
  lemma PooledPointersOwnedIff(base: nat, ele: nat, capacity: nat)
    requires 0 < ele < WORD && 0 < capacity < WORD
    ensures (forall i :: 0 <= i < capacity ==> Owns(Opened(base, ele, capacity), SlotAddress(base, ele, i)))
       <==> capacity * ele < WORD
  {
    var p := Opened(base, ele, capacity);
    if capacity * ele < WORD {
      ModUnique(capacity * ele, WORD, 0, capacity * ele);
      forall i | 0 <= i < capacity
        ensures Owns(p, SlotAddress(base, ele, i))
      {
        OwnsExactlyTheSlots(p, SlotAddress(base, ele, i));
      }
    } else {
      var k := capacity * ele / WORD;
      assert capacity * ele == k * WORD + p.total;
      MulGrows(k, WORD);
      assert SlotAddress(base, ele, capacity - 1) == base + (capacity * ele - ele);
      assert !Owns(p, SlotAddress(base, ele, capacity - 1));
    }
  }

  /** Acquire: nullptr once closed, otherwise the oldest free pointer. */
  function Acquired(p: Pool): (Pool, nat)
    requires p.closed || p.free != []
  {
    if p.closed then (p, 0) else (p.(free := p.free[1..]), p.free[0])
  }

  datatype ReleaseResult = Back(pool: Pool) | NotOwned

  function Released(p: Pool, ptr: nat): ReleaseResult
    requires p.ele > 0
  {
    if ptr == 0 || p.closed then Back(p)
    else if !Owns(p, ptr) then NotOwned
    else Back(p.(free := p.free + [ptr]))
  }

  // ---------- clients sharing a pool ----------

  /** `held` has each pointer as often as it has been handed out and not returned. */
  datatype State = State(pool: Pool, held: multiset<nat>)

  datatype Event = Take | Return(ptr: nat) | Close

  function Step(s: State, e: Event): State
    requires s.pool.ele > 0
  {
    match e
    case Take =>
      if s.pool.closed || s.pool.free == [] then s  // nullptr, or still waiting
      else State(Acquired(s.pool).0, s.held + multiset{Acquired(s.pool).1})
    case Return(ptr) =>
      (match Released(s.pool, ptr)
       case NotOwned => s
       case Back(pool) => State(pool, if ptr == 0 then s.held else s.held - multiset{ptr}))
    case Close => s.(pool := s.pool.(closed := true))
  }

  function Exec(s: State, es: seq<Event>): (t: State)
    requires s.pool.ele > 0
    ensures t.pool.ele == s.pool.ele && t.pool.base == s.pool.base && t.pool.capacity == s.pool.capacity
    ensures t.pool.total == s.pool.total
  {
    if es == [] then s else Step(Exec(s, es[..|es| - 1]), es[|es| - 1])
  }

  /** Clients give back only what they hold. */
  ghost predicate Disciplined(s: State, es: seq<Event>)
    requires s.pool.ele > 0
  {
    forall k :: 0 <= k < |es| && es[k].Return? ==> es[k].ptr in Exec(s, es[..k]).held
  }

  /** While the pool is open, free and held pointers together are the slots, each once. */
  ghost predicate Conserved(s: State) {
    !s.pool.closed ==>
      multiset(s.pool.free) + s.held == multiset(Slots(s.pool.base, s.pool.ele, s.pool.capacity))
  }

  lemma {:induction false} DisciplineConserves(s: State, es: seq<Event>)
    requires s.pool.ele > 0 && Conserved(s) && Disciplined(s, es)
    ensures Conserved(Exec(s, es))
  {
    if es != [] {
      var n := |es| - 1;
      assert forall k :: 0 <= k < n ==> es[..n][..k] == es[..k];
      DisciplineConserves(s, es[..n]);
      StepConserves(Exec(s, es[..n]), es[n]);
    }
  }

  lemma StepConserves(s: State, e: Event)
    requires s.pool.ele > 0 && Conserved(s) && (e.Return? ==> e.ptr in s.held)
    ensures Conserved(Step(s, e))
  {
    if e.Take? && s.pool.free != [] {
      assert s.pool.free == [s.pool.free[0]] + s.pool.free[1..];
    }
  }

  lemma {:induction false} SlotsDistinct(base: nat, ele: nat, capacity: nat, x: nat)
    requires ele > 0
    ensures multiset(Slots(base, ele, capacity))[x] <= 1
  {
    if capacity > 0 {
      var n := capacity - 1;
      var all, few := Slots(base, ele, capacity), Slots(base, ele, n);
      SlotsDistinct(base, ele, n, x);
      assert all == few + [SlotAddress(base, ele, n)];
      if x == SlotAddress(base, ele, n) {
        forall i | 0 <= i < n
          ensures few[i] != x
        {
          SlotsDisjoint(base, ele, i, n);
        }
      }
    }
  }

  /** In every disciplined run: no pointer is free twice, none is held twice, none is both, and each slot is one or the other. */
  lemma FreeAndHeldPartitionTheSlots(base: nat, ele: nat, capacity: nat, es: seq<Event>, x: nat)
    requires ele > 0
    requires Disciplined(State(Opened(base, ele, capacity), multiset{}), es)
    requires !Exec(State(Opened(base, ele, capacity), multiset{}), es).pool.closed
    ensures var s := Exec(State(Opened(base, ele, capacity), multiset{}), es);
      multiset(s.pool.free)[x] + s.held[x] == if IsSlot(s.pool, x) then 1 else 0
  {
    var init := State(Opened(base, ele, capacity), multiset{});
    DisciplineConserves(init, es);
    SlotsDistinct(base, ele, capacity, x);
    var s := Exec(init, es);
    var slots := Slots(base, ele, capacity);
    assert x in multiset(slots) <==> x in slots;
    assert (multiset(s.pool.free) + s.held)[x] == multiset(slots)[x];
    if IsSlot(s.pool, x) {
      var i :| 0 <= i < capacity && x == SlotAddress(base, ele, i);
      assert slots[i] == x;
    }
  }

  /** Returning an owned pointer keeps the slots conserved exactly when it was held; otherwise it is then free twice. */
  lemma ReturnConservesIff(s: State, ptr: nat)
    requires s.pool.ele > 0 && !s.pool.closed && ptr != 0 && Conserved(s) && Owns(s.pool, ptr)
    ensures Conserved(Step(s, Return(ptr))) <==> ptr in s.held
  {
    var s' := Step(s, Return(ptr));
    assert multiset(s'.pool.free)[ptr] == multiset(s.pool.free)[ptr] + 1;
    if ptr in s.held {
      StepConserves(s, Return(ptr));
    } else {
      assert (multiset(s'.pool.free) + s'.held)[ptr] == (multiset(s.pool.free) + s.held)[ptr] + 1;
    }
  }

  /** A pointer returned while still free is handed to two clients. */
  lemma DoubleReturnSharesASlot(base: nat, ele: nat)
    requires 0 < base && 0 < ele < WORD
    ensures var s := State(Opened(base, ele, 1), multiset{});
      Exec(s, [Return(base), Take, Take]).held[base] == 2
  {
    var s := State(Opened(base, ele, 1), multiset{});
    ModUnique(ele, WORD, 0, ele);
    ModUnique(0, ele, 0, 0);
    var es := [Return(base), Take, Take];
    assert es[..2] == [es[0], es[1]] && es[..2][..1] == [es[0]] && [es[0]][..0] == [];
    assert s.pool.free == [base] && Owns(s.pool, base);
    var s1 := Exec(s, [es[0]]);
    assert s1 == Step(Exec(s, []), es[0]) && s1.pool.free == [base, base];
    var s2 := Exec(s, es[..2]);
    assert s2 == Step(s1, es[1]) && s2.pool.free == [base];
  }

  /** After close no run hands anything out. */
  lemma {:induction false} NothingAfterClose(s: State, es: seq<Event>)
    requires s.pool.ele > 0 && s.pool.closed
    ensures Exec(s, es).pool.closed && Exec(s, es).held <= s.held
    ensures Acquired(Exec(s, es).pool).1 == 0
  {
    if es != [] {
      NothingAfterClose(s, es[..|es| - 1]);
    }
  }

  class InferTensorBufferPool {
    var data: nat
    const totalBytes: nat
    const eleBytesSize: nat
    const capacity: nat
    var buffer: seq<nat>
    var isClosed: bool

    /** The object as a value; close() nulls data_, which the closed pool never reads again. */
    ghost function Value(base: nat): Pool
      reads this
    {
      Pool(base, totalBytes, eleBytesSize, capacity, buffer, isClosed)
    }

    ghost predicate Valid(base: nat)
      reads this
    {
      eleBytesSize > 0 && data == if isClosed then 0 else base
    }

    /** After a cudaMalloc that returned `base`; the other outcomes throw before any pointer is queued. */
    constructor (eleSize: nat, eleBytes: nat, base: nat)
      requires eleSize > 0 && eleBytes > 0 && base > 0
      ensures Valid(base) && Value(base) == Opened(base, eleBytes, eleSize)
    {
      data, totalBytes, eleBytesSize, capacity, isClosed := base, TotalBytes(eleSize, eleBytes), eleBytes, eleSize, false;
      var queue := [];
      for i := 0 to eleSize
        invariant queue == Slots(base, eleBytes, i)
      {
        queue := queue + [SlotAddress(base, eleBytes, i)];
      }
      buffer := queue;
    }

    /** From the return of the wait on. */
    method Acquire(ghost base: nat) returns (ptr: nat)
      requires Valid(base) && (buffer != [] || isClosed)
      modifies this
      ensures Valid(base) && (Value(base), ptr) == Acquired(old(Value(base)))
    {
      if isClosed {
        return 0;
      }
      ptr := buffer[0];
      buffer := buffer[1..];
    }

    method Release(ptr: nat, ghost base: nat) returns (thrown: bool)
      requires Valid(base)
      modifies this
      ensures Valid(base)
      ensures match Released(old(Value(base)), ptr)
              case NotOwned => thrown && Value(base) == old(Value(base))
              case Back(pool) => !thrown && Value(base) == pool
    {
      thrown := false;
      if ptr == 0 || isClosed {
        return;
      }
      if !(data <= ptr < data + totalBytes && (ptr - data) % eleBytesSize == 0) {
        return true;
      }
      buffer := buffer + [ptr];
    }

    method Close(ghost base: nat)
      requires Valid(base)
      modifies this
      ensures Valid(base) && Value(base) == old(Value(base)).(closed := true)
    {
      if isClosed {
        return;
      }
      isClosed := true;
      data := 0;
    }
  }
}
