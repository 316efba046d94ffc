/** src/device/gpu_filter.cu: the filter-and-compact kernel on one batch element, its threads interleaving at every
    atomicAdd and every store. */
module GpuFilter {
  import opened Candidates
  import Arithmetic

  /** `threads` is blockDim.x * gridDim.y; thread t runs on lane t % block of block t / block. The element's input is
      `attributes` planes of `n` numbers, its output region starts at `base`. */
  datatype Launch = Launch(
    n: nat, classes: nat, input: seq<real>, inputBase: nat,
    threads: nat, block: nat, conf: real, maxDet: nat, base: nat)

  ghost predicate WellFormed(l: Launch) {
    l.threads > 0 && l.block > 0 && l.inputBase + (4 + l.classes) * l.n <= |l.input|
  }

  /** Attribute k of prediction i. */
  function Attribute(l: Launch, k: nat, i: nat): real
    requires WellFormed(l) && k < 4 + l.classes && i < l.n
  {
    Arithmetic.CellInRange(k, 4 + l.classes, i, l.n);
    l.input[l.inputBase + k * l.n + i]
  }

  function Scores(l: Launch, i: nat): seq<real>
    requires WellFormed(l) && i < l.n
  {
    seq(l.classes, c requires 0 <= c < l.classes => Attribute(l, 4 + c, i))
  }

  function BestOf(l: Launch, i: nat): Best
    requires WellFormed(l) && i < l.n
  {
    Scan(GPU_START, Scores(l, i))
  }

  predicate Passing(l: Launch, i: nat)
    requires WellFormed(l) && i < l.n
  {
    Passes(BestOf(l, i), l.conf)
  }

  /** The six numbers the kernel stores for prediction i. */
  function Row(l: Launch, i: nat): (row: seq<real>)
    requires WellFormed(l) && i < l.n
    ensures |row| == 6
  {
    [Attribute(l, 0, i), Attribute(l, 1, i), Attribute(l, 2, i), Attribute(l, 3, i),
     BestOf(l, i).score, BestOf(l, i).cls as real]
  }

  datatype Phase = AtHead | Storing(slot: nat, next: nat)

  /** A thread has finished `turn` turns of its grid-stride loop. */
  datatype Thread = Thread(turn: nat, phase: Phase)

  /** `early` and `grabbed` record the predictions whose atomicAdd came before and after the counter reset. */
  datatype State = State(
    count: nat, out: seq<real>, resetDone: bool, early: seq<nat>, grabbed: seq<nat>, threads: seq<Thread>)

  datatype Event = Reset | Visit(t: nat) | Store(t: nat)

  /** The loop variable of thread t. */
  function Index(l: Launch, s: State, t: nat): nat
    requires t < |s.threads|
  {
    t + s.threads[t].turn * l.threads
  }

  predicate Enabled(l: Launch, s: State, e: Event)
    requires WellFormed(l)
  {
    match e
    case Reset => !s.resetDone
    case Visit(t) =>  // __syncthreads holds block 0 back until its first thread has reset the counter
      t < |s.threads| && s.threads[t].phase.AtHead? && Index(l, s, t) < l.n && (s.resetDone || t >= l.block)
    case Store(t) =>
      && t < |s.threads| && s.threads[t].phase.Storing? && Index(l, s, t) < l.n && s.threads[t].phase.next < 6
      && l.base + s.threads[t].phase.slot * 6 + s.threads[t].phase.next < |s.out|
  }

  function Step(l: Launch, s: State, e: Event): State
    requires WellFormed(l)
  {
    if !Enabled(l, s, e) then s else
    match e
    case Reset => s.(count := 0, resetDone := true)
    case Visit(t) =>
      var i, turn := Index(l, s, t), s.threads[t].turn;
      if !Passing(l, i) then s.(threads := s.threads[t := Thread(turn + 1, AtHead)])
      else
        var s' := if s.resetDone then s.(grabbed := s.grabbed + [i]) else s.(early := s.early + [i]);
        s'.(count := s.count + 1,
            threads := s.threads[t := if s.count < l.maxDet then Thread(turn, Storing(s.count, 0)) else Thread(turn + 1, AtHead)])
    case Store(t) =>
      var i, turn, slot, next := Index(l, s, t), s.threads[t].turn, s.threads[t].phase.slot, s.threads[t].phase.next;
      s.(out := s.out[l.base + slot * 6 + next := Row(l, i)[next]],
         threads := s.threads[t := if next == 5 then Thread(turn + 1, AtHead) else Thread(turn, Storing(slot, next + 1))])
  }

  function Exec(l: Launch, s: State, es: seq<Event>): State
    requires WellFormed(l)
  {
    if es == [] then s else Step(l, Exec(l, s, es[..|es| - 1]), es[|es| - 1])
  }

  /** Any leftover count and output. */
  ghost predicate Initial(l: Launch, s: State) {
    && !s.resetDone && s.early == s.grabbed == [] && |s.threads| == l.threads
    && l.base + l.maxDet * 6 <= |s.out|
    && forall t :: 0 <= t < |s.threads| ==> s.threads[t] == Thread(0, AtHead)
  }

  // ---------- every prediction is visited once ----------

  lemma Places(l: Launch, j: nat)
    requires l.threads > 0
    ensures j % l.threads + (j / l.threads) * l.threads == j
  {
  }

  lemma PlaceOf(l: Launch, t: nat, turn: nat)
    requires t < l.threads
    ensures (t + turn * l.threads) % l.threads == t && (t + turn * l.threads) / l.threads == turn
  {
    Arithmetic.ModUnique(t + turn * l.threads, l.threads, turn, t);
  }

  /** Prediction j belongs to turn j / threads of thread j % threads. */
  ghost predicate Visited(l: Launch, s: State, j: nat)
    requires l.threads > 0 && |s.threads| == l.threads
  {
    var th := s.threads[j % l.threads];
    th.turn > j / l.threads || (th.turn == j / l.threads && th.phase.Storing?)
  }

  ghost predicate Distinct(s: seq<nat>) {
    forall i, j :: 0 <= i < j < |s| ==> s[i] != s[j]
  }

  ghost predicate VisitInv(l: Launch, s: State)
    requires WellFormed(l)
  {
    && |s.threads| == l.threads
    && Distinct(s.early + s.grabbed)
    && (forall j :: j in s.early + s.grabbed ==> j < l.n && Passing(l, j) && Visited(l, s, j))
    && (forall j :: 0 <= j < l.n && Passing(l, j) && Visited(l, s, j) ==> j in s.early + s.grabbed)
    && (if s.resetDone then s.count == |s.grabbed| else s.grabbed == [])
    && (forall j :: j in s.early ==> j % l.threads >= l.block)
  }

  lemma VisitKeeps(l: Launch, s: State, t: nat)
    requires WellFormed(l) && VisitInv(l, s) && Enabled(l, s, Visit(t))
    ensures VisitInv(l, Step(l, s, Visit(t)))
  {
    var s', i := Step(l, s, Visit(t)), Index(l, s, t);
    PlaceOf(l, t, s.threads[t].turn);
    assert !Visited(l, s, i) && Visited(l, s', i);
    forall j: nat | j != i
      ensures Visited(l, s', j) <==> Visited(l, s, j)
    {
      Places(l, j);
    }
    var all, all' := s.early + s.grabbed, s'.early + s'.grabbed;
    assert i !in all;
    if Passing(l, i) {
      assert all' == all + [i];
    } else {
      assert all' == all;
    }
  }

  lemma StoreKeeps(l: Launch, s: State, t: nat)
    requires WellFormed(l) && VisitInv(l, s) && Enabled(l, s, Store(t))
    ensures VisitInv(l, Step(l, s, Store(t)))
  {
    var s' := Step(l, s, Store(t));
    forall j: nat
      ensures Visited(l, s', j) <==> Visited(l, s, j)
    {
      Places(l, j);
    }
  }

  lemma InitialVisits(l: Launch, init: State)
    requires WellFormed(l) && Initial(l, init)
    ensures VisitInv(l, init)
  {
    assert init.early + init.grabbed == [];
    forall j: nat
      ensures !Visited(l, init, j)
    {
      NotVisited(l, init, j);
    }
  }

  lemma NotVisited(l: Launch, s: State, j: nat)
    requires l.threads > 0 && |s.threads| == l.threads && s.threads[j % l.threads] == Thread(0, AtHead)
    ensures !Visited(l, s, j)
  {
  }

  lemma StepKeepsVisits(l: Launch, s: State, e: Event)
    requires WellFormed(l) && VisitInv(l, s)
    ensures VisitInv(l, Step(l, s, e))
  {
    if Enabled(l, s, e) {
      match e
      case Reset =>
        forall j: nat
          ensures Visited(l, Step(l, s, e), j) <==> Visited(l, s, j)
        {
        }
      case Visit(t) => VisitKeeps(l, s, t);
      case Store(t) => StoreKeeps(l, s, t);
    }
  }

  lemma {:induction false} VisitInvHolds(l: Launch, init: State, es: seq<Event>)
    requires WellFormed(l) && Initial(l, init)
    ensures VisitInv(l, Exec(l, init, es))
  {
    if es == [] {
      InitialVisits(l, init);
    } else {
      VisitInvHolds(l, init, es[..|es| - 1]);
      StepKeepsVisits(l, Exec(l, init, es[..|es| - 1]), es[|es| - 1]);
    }
  }

  // ---------- what ends up in the slots ----------

  /** The first `k` cells of output slot `slot` hold prediction j's row. */
  ghost predicate CellsHold(l: Launch, out: seq<real>, slot: nat, j: nat, k: nat)
    requires WellFormed(l)
  {
    j < l.n && k <= 6 && l.base + slot * 6 + 6 <= |out|
    && forall c :: 0 <= c < k ==> out[l.base + slot * 6 + c] == Row(l, j)[c]
  }

  ghost predicate ThreadInv(l: Launch, s: State, t: nat)
    requires WellFormed(l) && |s.threads| == l.threads && t < l.threads
  {
    s.threads[t].phase.Storing? ==>
      var slot := s.threads[t].phase.slot;
      && slot < |s.grabbed| && slot < l.maxDet && s.grabbed[slot] == Index(l, s, t)
      && s.threads[t].phase.next < 6
  }

  ghost predicate SlotInv(l: Launch, s: State, slot: nat)
    requires WellFormed(l) && |s.threads| == l.threads && slot < |s.grabbed|
  {
    var j := s.grabbed[slot];
    var th := s.threads[j % l.threads];
    && (th.turn > j / l.threads ==> CellsHold(l, s.out, slot, j, 6))
    && (th.turn == j / l.threads ==> th.phase.Storing? && th.phase.slot == slot && CellsHold(l, s.out, slot, j, th.phase.next))
  }

  ghost predicate OutInv(l: Launch, init: State, s: State)
    requires WellFormed(l) && |s.threads| == l.threads
  {
    && |s.out| == |init.out| && l.base + l.maxDet * 6 <= |s.out|
    && (forall x :: 0 <= x < |s.out| && !(l.base <= x < l.base + l.maxDet * 6) ==> s.out[x] == init.out[x])
    && (forall t :: 0 <= t < l.threads ==> ThreadInv(l, s, t))
    && (forall slot :: 0 <= slot < |s.grabbed| && slot < l.maxDet ==> SlotInv(l, s, slot))
  }

  lemma GrabbedIsVisited(l: Launch, s: State, slot: nat)
    requires WellFormed(l) && VisitInv(l, s) && slot < |s.grabbed|
    ensures s.grabbed[slot] < l.n && Visited(l, s, s.grabbed[slot])
  {
    assert s.grabbed[slot] in s.early + s.grabbed;
  }

  lemma VisitKeepsOut(l: Launch, init: State, s: State, t: nat)
    requires WellFormed(l) && VisitInv(l, s) && OutInv(l, init, s) && Enabled(l, s, Visit(t)) && s.resetDone
    ensures OutInv(l, init, Step(l, s, Visit(t)))
  {
    var s', i := Step(l, s, Visit(t)), Index(l, s, t);
    PlaceOf(l, t, s.threads[t].turn);
    forall slot | 0 <= slot < |s'.grabbed| && slot < l.maxDet
      ensures SlotInv(l, s', slot)
    {
      if slot < |s.grabbed| {
        assert SlotInv(l, s, slot);
        GrabbedIsVisited(l, s, slot);
        Places(l, s.grabbed[slot]);
      }
    }
    forall u | 0 <= u < l.threads
      ensures ThreadInv(l, s', u)
    {
      assert ThreadInv(l, s, u);
    }
  }

  lemma StoreKeepsOut(l: Launch, init: State, s: State, t: nat)
    requires WellFormed(l) && VisitInv(l, s) && OutInv(l, init, s) && Enabled(l, s, Store(t))
    ensures OutInv(l, init, Step(l, s, Store(t)))
  {
    var s' := Step(l, s, Store(t));
    assert ThreadInv(l, s, t);
    forall slot | 0 <= slot < |s'.grabbed| && slot < l.maxDet
      ensures SlotInv(l, s', slot)
    {
      StoreKeepsSlot(l, init, s, t, slot);
    }
    forall u | 0 <= u < l.threads
      ensures ThreadInv(l, s', u)
    {
      assert ThreadInv(l, s, u);
    }
  }

  lemma StoreKeepsSlot(l: Launch, init: State, s: State, t: nat, slot: nat)
    requires WellFormed(l) && VisitInv(l, s) && OutInv(l, init, s) && Enabled(l, s, Store(t))
    requires slot < |s.grabbed| && slot < l.maxDet
    ensures |Step(l, s, Store(t)).threads| == l.threads && slot < |Step(l, s, Store(t)).grabbed| && SlotInv(l, Step(l, s, Store(t)), slot)
  {
    var mine, i := s.threads[t].phase.slot, Index(l, s, t);
    assert ThreadInv(l, s, t) && SlotInv(l, s, slot);
    PlaceOf(l, t, s.threads[t].turn);
    GrabbedIsVisited(l, s, slot);
    Places(l, s.grabbed[slot]);
    assert (s.early + s.grabbed)[|s.early| + slot] == s.grabbed[slot] && (s.early + s.grabbed)[|s.early| + mine] == i;
    if slot == mine {
      RowGrows(l, s, t, slot);
    } else {
      CellsApart(l, s, t, slot);
    }
  }

  /** The storing thread's own row gets its next cell. */
  lemma RowGrows(l: Launch, s: State, t: nat, slot: nat)
    requires WellFormed(l) && |s.threads| == l.threads && Enabled(l, s, Store(t)) && slot == s.threads[t].phase.slot
    requires CellsHold(l, s.out, slot, Index(l, s, t), s.threads[t].phase.next)
    ensures CellsHold(l, Step(l, s, Store(t)).out, slot, Index(l, s, t), s.threads[t].phase.next + 1)
  {
  }

  /** The cells of every other slot stay. */
  lemma CellsApart(l: Launch, s: State, t: nat, slot: nat)
    requires WellFormed(l) && |s.threads| == l.threads && Enabled(l, s, Store(t)) && slot != s.threads[t].phase.slot
    ensures forall j, k :: CellsHold(l, s.out, slot, j, k) ==> CellsHold(l, Step(l, s, Store(t)).out, slot, j, k)
  {
  }

  lemma {:induction false} OutInvHolds(l: Launch, init: State, es: seq<Event>)
    requires WellFormed(l) && Initial(l, init) && Exec(l, init, es).early == []
    ensures VisitInv(l, Exec(l, init, es)) && OutInv(l, init, Exec(l, init, es))
  {
    VisitInvHolds(l, init, es);
    if es != [] {
      var s, e := Exec(l, init, es[..|es| - 1]), es[|es| - 1];
      VisitInvHolds(l, init, es[..|es| - 1]);
      assert s.early == [];
      OutInvHolds(l, init, es[..|es| - 1]);
      if Enabled(l, s, e) {
        match e
        case Reset => ResetKeepsOut(l, init, s);
        case Visit(t) => if s.resetDone { VisitKeepsOut(l, init, s, t); } else { EarlyVisitKeepsOut(l, init, s, t); }
        case Store(t) => StoreKeepsOut(l, init, s, t);
      }
    }
  }

  lemma ResetKeepsOut(l: Launch, init: State, s: State)
    requires WellFormed(l) && VisitInv(l, s) && OutInv(l, init, s) && Enabled(l, s, Reset)
    ensures OutInv(l, init, Step(l, s, Reset))
  {
    forall u | 0 <= u < l.threads
      ensures ThreadInv(l, Step(l, s, Reset), u)
    {
      assert ThreadInv(l, s, u);
    }
  }

  /** A visit before the reset that adds nothing to the counter. */
  lemma EarlyVisitKeepsOut(l: Launch, init: State, s: State, t: nat)
    requires WellFormed(l) && VisitInv(l, s) && OutInv(l, init, s) && Enabled(l, s, Visit(t)) && !s.resetDone
    requires Step(l, s, Visit(t)).early == []
    ensures OutInv(l, init, Step(l, s, Visit(t)))
  {
    forall u | 0 <= u < l.threads
      ensures ThreadInv(l, Step(l, s, Visit(t)), u)
    {
      assert ThreadInv(l, s, u);
    }
  }

  // ---------- the finished kernel ----------

  ghost predicate Finished(l: Launch, s: State) {
    s.resetDone && forall t :: 0 <= t < |s.threads| ==> s.threads[t].phase.AtHead? && Index(l, s, t) >= l.n
  }

  /** The passing predictions in index order, as a sequential scan meets them. */
  function PassingBelow(l: Launch, k: nat): seq<nat>
    requires WellFormed(l) && k <= l.n
  {
    if k == 0 then [] else PassingBelow(l, k - 1) + if Passing(l, k - 1) then [k - 1] else []
  }

  lemma {:induction false} PassingBelowMembers(l: Launch, k: nat)
    requires WellFormed(l) && k <= l.n
    ensures Distinct(PassingBelow(l, k))
    ensures forall j :: j in PassingBelow(l, k) <==> 0 <= j < k && Passing(l, j)
  {
    if k > 0 {
      PassingBelowMembers(l, k - 1);
    }
  }

  lemma {:induction false} Multiplicity(a: seq<nat>, x: nat)
    requires Distinct(a)
    ensures multiset(a)[x] == if x in a then 1 else 0
  {
    if a != [] {
      var n := |a| - 1;
      Multiplicity(a[..n], x);
      assert a == a[..n] + [a[n]];
    }
  }

  lemma SameMembers(a: seq<nat>, b: seq<nat>)
    requires Distinct(a) && Distinct(b) && forall x :: x in a <==> x in b
    ensures multiset(a) == multiset(b) && |a| == |b|
  {
    forall x: nat
      ensures multiset(a)[x] == multiset(b)[x]
    {
      Multiplicity(a, x);
      Multiplicity(b, x);
    }
    assert |multiset(a)| == |a| && |multiset(b)| == |b|;
  }

  lemma FinishedVisitedAll(l: Launch, s: State, j: nat)
    requires WellFormed(l) && VisitInv(l, s) && Finished(l, s) && j < l.n
    ensures Visited(l, s, j)
  {
    Places(l, j);
    var t := j % l.threads;
    assert Index(l, s, t) >= l.n > j;
    if s.threads[t].turn <= j / l.threads {
      Arithmetic.MulMonotone(s.threads[t].turn, j / l.threads, l.threads);
    }
  }

  /** When the kernel has finished, the predictions claimed before and after the reset are together exactly the passing
      ones, each once, in whatever order the threads ran. */
  lemma EveryPassingPredictionOnce(l: Launch, init: State, es: seq<Event>)
    requires WellFormed(l) && Initial(l, init) && Finished(l, Exec(l, init, es))
    ensures var s := Exec(l, init, es);
      multiset(s.early + s.grabbed) == multiset(PassingBelow(l, l.n)) && |s.early| + |s.grabbed| == |PassingBelow(l, l.n)|
  {
    VisitInvHolds(l, init, es);
    PassingBelowMembers(l, l.n);
    var s := Exec(l, init, es);
    forall j: nat | j < l.n
      ensures Visited(l, s, j)
    {
      FinishedVisitedAll(l, s, j);
    }
    SameMembers(s.early + s.grabbed, PassingBelow(l, l.n));
  }

  /** Whatever order the threads ran in, once the kernel has finished the slot of a claim holds the row of the prediction that
      claimed it. */
  lemma StoredRow(l: Launch, init: State, es: seq<Event>, slot: nat) returns (i: nat)
    requires WellFormed(l) && Initial(l, init)
    requires Finished(l, Exec(l, init, es)) && Exec(l, init, es).early == []
    requires slot < |Exec(l, init, es).grabbed| && slot < l.maxDet
    ensures i == Exec(l, init, es).grabbed[slot] && i < l.n && Passing(l, i) && l.base + slot * 6 + 6 <= |Exec(l, init, es).out|
    ensures forall k :: 0 <= k < 6 ==> Exec(l, init, es).out[l.base + slot * 6 + k] == Row(l, i)[k]
  {
    OutInvHolds(l, init, es);
    var s := Exec(l, init, es);
    GrabbedIsVisited(l, s, slot);
    i := s.grabbed[slot];
    assert SlotInv(l, s, slot) && s.threads[i % l.threads].phase.AtHead?;
    assert CellsHold(l, s.out, slot, i, 6);
    assert i in s.early + s.grabbed;
  }

  /** The row of a prediction on the kernel's input, one plane after another: the first four cells come from the planes of the
      box. */
  lemma BoxOnInput(l: Launch, i: nat, k: nat)
    requires WellFormed(l) && i < l.n && k < 4
    ensures l.inputBase + k * l.n + i < |l.input| && Row(l, i)[k] == l.input[l.inputBase + k * l.n + i]
  {
    Arithmetic.CellInRange(k, 4 + l.classes, i, l.n);
  }

  /** The last two are the greatest class score, which reaches the threshold, and the lowest class that has it. */
  lemma BestOnInput(l: Launch, i: nat, c: nat) returns (cls: nat)
    requires WellFormed(l) && i < l.n && l.conf > -1.0 && Passing(l, i) && c < l.classes
    ensures cls < l.classes && Row(l, i)[5] == cls as real
    ensures l.inputBase + (4 + cls) * l.n + i < |l.input| && Row(l, i)[4] == l.input[l.inputBase + (4 + cls) * l.n + i] >= l.conf
    ensures l.inputBase + (4 + c) * l.n + i < |l.input| && l.input[l.inputBase + (4 + c) * l.n + i] <= Row(l, i)[4]
    ensures c < cls ==> l.input[l.inputBase + (4 + c) * l.n + i] < Row(l, i)[4]
  {
    ScanIsLowestArgmax(GPU_START, Scores(l, i));
    cls := BestOf(l, i).cls;
    ScoreOnInput(l, i, cls);
    ScoreOnInput(l, i, c);
  }

  lemma ScoreOnInput(l: Launch, i: nat, c: nat)
    requires WellFormed(l) && i < l.n && c < l.classes
    ensures l.inputBase + (4 + c) * l.n + i < |l.input| && Scores(l, i)[c] == l.input[l.inputBase + (4 + c) * l.n + i]
  {
    Arithmetic.CellInRange(4 + c, 4 + l.classes, i, l.n);
  }

  /** A prediction passes exactly when some class score, in the planes after the box's four, reaches the threshold: if one does
      then it passes, and if it passes then there is one. */
  lemma PassingOnInput(l: Launch, i: nat, c: nat) returns (cls: nat)
    requires WellFormed(l) && i < l.n && c < l.classes && l.conf > -1.0
    ensures l.inputBase + (4 + c) * l.n + i < |l.input|
    ensures l.input[l.inputBase + (4 + c) * l.n + i] >= l.conf ==> Passing(l, i)
    ensures Passing(l, i) ==>
      cls < l.classes && l.inputBase + (4 + cls) * l.n + i < |l.input| && l.input[l.inputBase + (4 + cls) * l.n + i] >= l.conf
  {
    ScanIsLowestArgmax(GPU_START, Scores(l, i));
    ScoreOnInput(l, i, c);
    cls := c;
    if Passing(l, i) {
      cls := BestOnInput(l, i, c);
    }
  }

  /** The final count is the number of passing predictions exactly when no atomicAdd came before the reset. */
  lemma CountRightIff(l: Launch, init: State, es: seq<Event>)
    requires WellFormed(l) && Initial(l, init) && Finished(l, Exec(l, init, es))
    ensures var s := Exec(l, init, es);
      && s.count == |PassingBelow(l, l.n)| - |s.early|
      && (s.count == |PassingBelow(l, l.n)| <==> s.early == [])
  {
    VisitInvHolds(l, init, es);
    EveryPassingPredictionOnce(l, init, es);
  }

  /** With the launcher's grid, which has a thread for every prediction, the reset comes first in every run exactly when no
      passing prediction belongs to a block after the first. */
  lemma ResetAlwaysFirstIff(l: Launch, init: State)
    requires WellFormed(l) && Initial(l, init) && l.n <= l.threads
    ensures (forall es :: Exec(l, init, es).early == []) <==> (forall j :: 0 <= j < l.n && Passing(l, j) ==> j < l.block)
  {
    if forall j :: 0 <= j < l.n && Passing(l, j) ==> j < l.block {
      forall es
        ensures Exec(l, init, es).early == []
      {
        NoEarlyVisit(l, init, es);
      }
    } else {
      var j :| 0 <= j < l.n && Passing(l, j) && j >= l.block;
      assert Index(l, init, j) == j;
      assert Exec(l, init, []) == init;
      assert Exec(l, init, [Visit(j)]) == Step(l, Exec(l, init, []), Visit(j));
      assert Exec(l, init, [Visit(j)]).early == [j];
    }
  }

  lemma NoEarlyVisit(l: Launch, init: State, es: seq<Event>)
    requires WellFormed(l) && Initial(l, init) && l.n <= l.threads
    requires forall j :: 0 <= j < l.n && Passing(l, j) ==> j < l.block
    ensures Exec(l, init, es).early == []
  {
    VisitInvHolds(l, init, es);
    var s := Exec(l, init, es);
    if s.early != [] {
      var j := (s.early + s.grabbed)[0];
      assert j in s.early && j in s.early + s.grabbed;
      Arithmetic.ModUnique(j, l.threads, 0, j);
    }
  }

  /** How far a thread has come; a finished row counts as a finished turn. */
  function Advance(th: Thread): nat {
    7 * th.turn + match th.phase case AtHead => 0 case Storing(_, next) => next + 1
  }

  /** Where a thread that stores is. */
  ghost predicate StoringInv(l: Launch, s: State, t: nat)
    requires t < |s.threads|
  {
    s.threads[t].phase.Storing? ==> s.threads[t].phase.slot < l.maxDet && s.threads[t].phase.next < 6 && Index(l, s, t) < l.n
  }

  ghost predicate BoundsInv(l: Launch, s: State) {
    && |s.threads| == l.threads && l.base + l.maxDet * 6 <= |s.out|
    && forall t :: 0 <= t < |s.threads| ==> StoringInv(l, s, t)
  }

  lemma StepKeepsBounds(l: Launch, s: State, e: Event)
    requires WellFormed(l) && BoundsInv(l, s)
    ensures BoundsInv(l, Step(l, s, e))
  {
    var s' := Step(l, s, e);
    forall t | 0 <= t < |s'.threads|
      ensures StoringInv(l, s', t)
    {
      assert StoringInv(l, s, t);
    }
  }

  lemma {:induction false} BoundsInvHolds(l: Launch, init: State, es: seq<Event>)
    requires WellFormed(l) && Initial(l, init)
    ensures BoundsInv(l, Exec(l, init, es))
  {
    if es != [] {
      BoundsInvHolds(l, init, es[..|es| - 1]);
      StepKeepsBounds(l, Exec(l, init, es[..|es| - 1]), es[|es| - 1]);
    }
  }

  /** No thread waits for another: in any run a thread with a prediction left can make its next step, whatever the others are
      doing, once the counter is reset or if it is not in the first block. */
  lemma ThreadsMoveFreely(l: Launch, init: State, es: seq<Event>, t: nat)
    requires WellFormed(l) && Initial(l, init) && t < l.threads
    ensures var s := Exec(l, init, es);
      && |s.threads| == l.threads
      && (!s.resetDone ==> Step(l, s, Reset).resetDone)
      && (s.threads[t].phase.Storing? ==> Advance(Step(l, s, Store(t)).threads[t]) == Advance(s.threads[t]) + 1)
      && (s.threads[t].phase.AtHead? && Index(l, s, t) < l.n && (s.resetDone || t >= l.block) ==>
            Advance(Step(l, s, Visit(t)).threads[t]) > Advance(s.threads[t]))
  {
    BoundsInvHolds(l, init, es);
    assert StoringInv(l, Exec(l, init, es), t);
  }

  /** Once the counter is reset, an unfinished kernel always has a thread that can move, and a finished one has none. */
  lemma KernelProgress(l: Launch, init: State, es: seq<Event>)
    requires WellFormed(l) && Initial(l, init) && Exec(l, init, es).resetDone
    ensures var s := Exec(l, init, es); Finished(l, s) <==> forall e :: Step(l, s, e) == s
  {
    var s := Exec(l, init, es);
    BoundsInvHolds(l, init, es);
    if !Finished(l, s) {
      var t :| 0 <= t < |s.threads| && (!s.threads[t].phase.AtHead? || Index(l, s, t) < l.n);
      ThreadsMoveFreely(l, init, es, t);
    }
  }

  // ---------- no cell is stored twice ----------

  lemma StepAdvances(l: Launch, s: State, e: Event, t: nat)
    requires WellFormed(l) && t < |s.threads|
    ensures |Step(l, s, e).threads| == |s.threads|
    ensures Advance(Step(l, s, e).threads[t]) >= Advance(s.threads[t])
    ensures e == Store(t) && Enabled(l, s, e) ==> Advance(Step(l, s, e).threads[t]) > Advance(s.threads[t])
  {
  }

  lemma {:induction false} ThreadAdvances(l: Launch, s: State, es: seq<Event>, i: nat, t: nat)
    requires WellFormed(l) && i <= |es| && t < |s.threads|
    ensures |Exec(l, s, es[..i]).threads| == |Exec(l, s, es).threads| == |s.threads|
    ensures Advance(Exec(l, s, es[..i]).threads[t]) <= Advance(Exec(l, s, es).threads[t])
    decreases |es|
  {
    var n := |es| - 1;
    if i < |es| {
      ThreadAdvances(l, s, es[..n], i, t);
      assert es[..n][..i] == es[..i];
      StepAdvances(l, Exec(l, s, es[..n]), es[n], t);
    } else {
      assert es[..i] == es;
      if es != [] {
        ThreadAdvances(l, s, es[..n], n, t);
        StepAdvances(l, Exec(l, s, es[..n]), es[n], t);
      }
    }
  }

  /** The cell an enabled store hits. */
  function CellOf(l: Launch, s: State, t: nat): nat
    requires WellFormed(l) && Enabled(l, s, Store(t))
  {
    l.base + s.threads[t].phase.slot * 6 + s.threads[t].phase.next
  }

  /** In a run whose reset came first, two stores never hit the same output cell, and none leaves the element's region. */
  lemma NoCellStoredTwice(l: Launch, init: State, es: seq<Event>, i: nat, j: nat, t: nat, u: nat)
    requires WellFormed(l) && Initial(l, init) && i < j < |es| && es[i] == Store(t) && es[j] == Store(u)
    requires Exec(l, init, es[..j]).early == []
    requires Enabled(l, Exec(l, init, es[..i]), es[i]) && Enabled(l, Exec(l, init, es[..j]), es[j])
    ensures CellOf(l, Exec(l, init, es[..i]), t) != CellOf(l, Exec(l, init, es[..j]), u)
    ensures l.base <= CellOf(l, Exec(l, init, es[..j]), u) < l.base + l.maxDet * 6
  {
    var a, b := Exec(l, init, es[..i]), Exec(l, init, es[..j]);
    EarlierHasNoEarly(l, init, es[..j], i);
    assert es[..j][..i] == es[..i] && es[..j][..i + 1] == es[..i + 1] && es[..i + 1][..i] == es[..i];
    OutInvHolds(l, init, es[..i]);
    OutInvHolds(l, init, es[..j]);
    assert ThreadInv(l, a, t) && ThreadInv(l, b, u);
    if CellOf(l, a, t) == CellOf(l, b, u) {
      assert a.threads[t].phase == b.threads[u].phase;
      assert Index(l, a, t) == Index(l, b, u);
      PlaceOf(l, t, a.threads[t].turn);
      PlaceOf(l, u, b.threads[u].turn);
      assert a.threads[t] == b.threads[t];
      assert Exec(l, init, es[..i + 1]) == Step(l, a, es[i]);
      StepAdvances(l, a, es[i], t);
      ThreadAdvances(l, init, es[..j], i + 1, t);
    }
  }

  /** Claims are only ever added, at the end. */
  lemma {:induction false} EarlierHasNoEarly(l: Launch, init: State, es: seq<Event>, i: nat)
    requires WellFormed(l) && i <= |es| && Exec(l, init, es).early == []
    ensures Exec(l, init, es[..i]).early == [] && Exec(l, init, es[..i]).grabbed <= Exec(l, init, es).grabbed
  {
    if i < |es| {
      EarlierHasNoEarly(l, init, es[..|es| - 1], i);
      assert es[..|es| - 1][..i] == es[..i];
    } else {
      assert es[..i] == es;
    }
  }

  // ---------- the kernel on device memory ----------

  lemma ExecOneMore(l: Launch, init: State, es: seq<Event>, e: Event)
    requires WellFormed(l)
    ensures Exec(l, init, es + [e]) == Step(l, Exec(l, init, es), e)
  {
    assert (es + [e])[..|es|] == es;
  }

  lemma NextIndex(turn: nat, threads: nat)
    ensures (turn + 1) * threads == turn * threads + threads
  {
  }

  /** One element's counter and output, with the kernel's threads run whole, one after the other: the schedule `log`. */
  class Device {
    const l: Launch
    const out: array<real>
    var count: nat
    ghost const init: State
    ghost var log: seq<Event>

    ghost function Current(): State
      reads this
      requires WellFormed(l)
    {
      Exec(l, init, log)
    }

    ghost predicate Valid()
      reads this, out
    {
      && WellFormed(l) && Initial(l, init)
      && Current().early == [] && Current().count == count && Current().out == out[..]
    }

    constructor (l: Launch, out: array<real>, leftover: nat)
      requires WellFormed(l) && l.base + l.maxDet * 6 <= out.Length
      ensures Valid() && this.l == l && this.out == out && log == []
    {
      this.l, this.out, count, log := l, out, leftover, [];
      init := State(leftover, out[..], false, [], [], seq(l.threads, _ => Thread(0, AtHead)));
    }

    method ResetCount()
      requires Valid() && !Current().resetDone
      modifies this
      ensures Valid() && log == old(log) + [Reset] && Current().resetDone && count == 0
      ensures Current().threads == old(Current().threads) && out[..] == old(out[..])
    {
      ExecOneMore(l, init, log, Reset);
      count := 0;
      log := log + [Reset];
    }

    /** The threshold test and the atomicAdd. */
    method Claim(t: nat, i: nat, best: Best) returns (slot: nat, stores: bool)
      requires Valid() && Current().resetDone && t < l.threads && |Current().threads| == l.threads
      requires Current().threads[t].phase.AtHead? && Index(l, Current(), t) == i < l.n && best == BestOf(l, i)
      modifies this
      ensures Valid() && Current().resetDone && out[..] == old(out[..])
      ensures stores == (Passing(l, i) && slot < l.maxDet) && (Passing(l, i) ==> slot == old(count))
      ensures Current().threads == old(Current().threads)[t :=
        if stores then Thread(old(Current().threads)[t].turn, Storing(slot, 0)) else Thread(old(Current().threads)[t].turn + 1, AtHead)]
    {
      ExecOneMore(l, init, log, Visit(t));
      slot := count;
      if best.score >= l.conf {
        count := count + 1;
      }
      stores := best.score >= l.conf && slot < l.maxDet;
      log := log + [Visit(t)];
    }

    /** One of the six stores of a row. */
    method StoreCell(t: nat, i: nat, slot: nat, k: nat, value: real)
      requires Valid() && Current().resetDone && t < l.threads && |Current().threads| == l.threads
      requires Current().threads[t].phase == Storing(slot, k) && k < 6 && Index(l, Current(), t) == i < l.n && value == Row(l, i)[k]
      modifies this`log, out
      ensures Valid() && Current().resetDone
      ensures Current().threads == old(Current().threads)[t :=
        if k == 5 then Thread(old(Current().threads)[t].turn + 1, AtHead) else Thread(old(Current().threads)[t].turn, Storing(slot, k + 1))]
    {
      OutInvHolds(l, init, log);
      assert ThreadInv(l, Current(), t);
      ExecOneMore(l, init, log, Store(t));
      out[l.base + slot * 6 + k] := value;
      log := log + [Store(t)];
    }

    /** One turn of the grid-stride loop for prediction i, whose class scan gave `best`. */
    method Turn(t: nat, i: nat, best: Best)
      requires Valid() && Current().resetDone && t < l.threads && |Current().threads| == l.threads
      requires Current().threads[t].phase.AtHead? && Index(l, Current(), t) == i < l.n && best == BestOf(l, i)
      modifies this, out
      ensures Valid() && Current().resetDone
      ensures Current().threads == old(Current().threads)[t := Thread(old(Current().threads)[t].turn + 1, AtHead)]
    {
      ghost var turn, threads := Current().threads[t].turn, Current().threads;
      var slot, stores := Claim(t, i, best);
      if stores {
        var row := [Attribute(l, 0, i), Attribute(l, 1, i), Attribute(l, 2, i), Attribute(l, 3, i), best.score, best.cls as real];
        for k := 0 to 6
          invariant Valid() && Current().resetDone
          invariant Current().threads == threads[t := if k < 6 then Thread(turn, Storing(slot, k)) else Thread(turn + 1, AtHead)]
        {
          StoreCell(t, i, slot, k, row[k]);
        }
      }
    }

    /** The body of the kernel for thread t: the grid-stride loop. */
    method RunThread(t: nat)
      requires Valid() && Current().resetDone && t < l.threads && |Current().threads| == l.threads
      requires Current().threads[t] == Thread(0, AtHead)
      modifies this, out
      ensures Valid() && Current().resetDone && |Current().threads| == l.threads
      ensures Current().threads[t].phase.AtHead? && Index(l, Current(), t) >= l.n
      ensures forall u :: 0 <= u < l.threads && u != t ==> Current().threads[u] == old(Current().threads)[u]
    {
      var i := t;
      while i < l.n
        invariant Valid() && Current().resetDone && |Current().threads| == l.threads
        invariant Current().threads[t].phase.AtHead? && Index(l, Current(), t) == i
        invariant forall u :: 0 <= u < l.threads && u != t ==> Current().threads[u] == old(Current().threads)[u]
        decreases l.n - i
      {
        var best := ScanLoop(GPU_START, Scores(l, i));
        NextIndex(Current().threads[t].turn, l.threads);
        Turn(t, i, best);
        i := i + l.threads;
      }
    }

    /** A whole launch. */
    method RunKernel()
      requires Valid() && log == []
      modifies this, out
      ensures Valid() && Finished(l, Current())
      ensures count == |PassingBelow(l, l.n)|
    {
      ResetCount();
      for t := 0 to l.threads
        invariant Valid() && Current().resetDone && |Current().threads| == l.threads
        invariant forall u :: 0 <= u < t ==> Current().threads[u].phase.AtHead? && Index(l, Current(), u) >= l.n
        invariant forall u :: t <= u < l.threads ==> Current().threads[u] == Thread(0, AtHead)
      {
        RunThread(t);
      }
      CountRightIff(l, init, log);
    }
  }
}
