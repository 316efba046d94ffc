/** What many clients hold together. */
module Gathering {
  ghost function Gather<A>(holds: A -> multiset<nat>, clients: seq<A>): multiset<nat> {
    if clients == [] then multiset{}
    else Gather(holds, clients[..|clients| - 1]) + holds(clients[|clients| - 1])
  }

  lemma {:induction false} GatherUpdate<A>(holds: A -> multiset<nat>, clients: seq<A>, i: nat, x: A)
    requires i < |clients|
    ensures Gather(holds, clients[i := x]) + holds(clients[i]) == Gather(holds, clients) + holds(x)
  {
    var n := |clients| - 1;
    if i < n {
      GatherUpdate(holds, clients[..n], i, x);
      assert clients[i := x][..n] == clients[..n][i := x];
      assert (Gather(holds, clients[..n][i := x]) + holds(clients[n])) + holds(clients[i])
          == (Gather(holds, clients[..n][i := x]) + holds(clients[i])) + holds(clients[n]);
      assert (Gather(holds, clients[..n]) + holds(x)) + holds(clients[n])
          == (Gather(holds, clients[..n]) + holds(clients[n])) + holds(x);
    } else {
      assert clients[i := x][..n] == clients[..n];
    }
  }

  lemma GatherAppend<A>(holds: A -> multiset<nat>, clients: seq<A>, x: A)
    ensures Gather(holds, clients + [x]) == Gather(holds, clients) + holds(x)
  {
    assert (clients + [x])[..|clients|] == clients;
  }

  lemma {:induction false} GatherHas<A>(holds: A -> multiset<nat>, clients: seq<A>, i: nat)
    requires i < |clients|
    ensures holds(clients[i]) <= Gather(holds, clients)
  {
    if i < |clients| - 1 {
      GatherHas(holds, clients[..|clients| - 1], i);
    }
  }

  lemma {:induction false} GatherTwo<A>(holds: A -> multiset<nat>, clients: seq<A>, i: nat, j: nat)
    requires i < j < |clients|
    ensures holds(clients[i]) + holds(clients[j]) <= Gather(holds, clients)
  {
    if j < |clients| - 1 {
      GatherTwo(holds, clients[..|clients| - 1], i, j);
    } else {
      GatherHas(holds, clients[..j], i);
    }
  }

  lemma {:induction false} GatherNothing<A>(holds: A -> multiset<nat>, clients: seq<A>)
    requires forall i :: 0 <= i < |clients| ==> holds(clients[i]) == multiset{}
    ensures Gather(holds, clients) == multiset{}
  {
    if clients != [] {
      GatherNothing(holds, clients[..|clients| - 1]);
    }
  }

  lemma {:induction false} GatherSome<A>(holds: A -> multiset<nat>, clients: seq<A>) returns (i: nat)
    requires Gather(holds, clients) != multiset{}
    ensures i < |clients| && holds(clients[i]) != multiset{}
  {
    i := |clients| - 1;
    if holds(clients[i]) == multiset{} {
      i := GatherSome(holds, clients[..i]);
    }
  }

  lemma GatherSwap<A>(holds: A -> multiset<nat>, clients: seq<A>, i: nat, x: A)
    requires i < |clients|
    ensures holds(clients[i]) == multiset{} ==> Gather(holds, clients[i := x]) == Gather(holds, clients) + holds(x)
    ensures holds(x) == multiset{} ==> Gather(holds, clients) == Gather(holds, clients[i := x]) + holds(clients[i])
    ensures holds(clients[i]) == holds(x) ==> Gather(holds, clients[i := x]) == Gather(holds, clients)
  {
    GatherUpdate(holds, clients, i, x);
    var before, after := Gather(holds, clients), Gather(holds, clients[i := x]);
    assert before + multiset{} == before && after + multiset{} == after;
    assert (before + holds(x)) - holds(x) == before && (after + holds(x)) - holds(x) == after;
  }
}
