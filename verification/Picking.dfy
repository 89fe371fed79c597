// ORDER BY key LIMIT n FOR UPDATE SKIP LOCKED, shared by the reaper, the retry
// dispatcher, the sweeper and the scheduler.
module Picking {
  import opened Basics

  // What such a query may return: unlocked candidates, oldest first, as many as
  // the limit allows. Ties between equal keys are left open, as Postgres leaves them.
  ghost predicate Picks<K(!new)>(cands: map<K, Time>, locked: set<K>, limit: nat, picked: set<K>) {
    var free := cands.Keys - locked;
    && picked <= free
    && |picked| <= limit
    && (|picked| < limit ==> picked == free)
    && forall a, b | a in picked && b in free && b !in picked :: cands[a] <= cands[b]
  }

  lemma PicksAmong<K(!new)>(cands: map<K, Time>, locked: set<K>, limit: nat, picked: set<K>)
    requires Picks(cands, locked, limit, picked)
    ensures forall k | k in picked :: k in cands
  {
  }

  predicate Sorted<K>(cands: map<K, Time>, picked: seq<K>)
    requires forall k | k in picked :: k in cands
  {
    forall i, j | 0 <= i < j < |picked| :: cands[picked[i]] <= cands[picked[j]]
  }

  method Oldest<K(==)>(cands: map<K, Time>, among: set<K>) returns (k: K)
    requires among != {} && among <= cands.Keys
    ensures k in among
    ensures forall x | x in among :: cands[k] <= cands[x]
  {
    k :| k in among;
    var rest := among - {k};
    while rest != {}
      invariant rest <= among && k in among
      invariant forall x | x in among && x !in rest :: cands[k] <= cands[x]
      decreases |rest|
    {
      var x :| x in rest;
      if cands[x] < cands[k] {
        k := x;
      }
      rest := rest - {x};
    }
  }

  // Half-way through the query: `picked` holds the oldest of `free`, in order,
  // and `rest` what is left of it.
  ghost predicate Partition<K(!new)>(cands: map<K, Time>, free: set<K>, rest: set<K>, picked: seq<K>) {
    && NoDup(picked)
    && rest <= free <= cands.Keys
    && Elems(picked) == free - rest
    && (forall k | k in picked :: k in cands)
    && Sorted(cands, picked)
    && forall a, b | a in picked && b in rest :: cands[a] <= cands[b]
  }

  lemma PartitionStep<K(!new)>(cands: map<K, Time>, free: set<K>, rest: set<K>, picked: seq<K>, k: K)
    requires Partition(cands, free, rest, picked)
    requires k in rest && forall x | x in rest :: cands[k] <= cands[x]
    ensures Partition(cands, free, rest - {k}, picked + [k])
  {
    var p := picked + [k];
    assert forall x :: x in p <==> x in picked || x == k;
    assert k !in Elems(picked);
    assert Elems(p) == Elems(picked) + {k};
    forall i, j | 0 <= i < j < |p| ensures p[i] != p[j] && cands[p[i]] <= cands[p[j]] {
      assert p[i] in picked;
    }
  }

  lemma PartitionPicks<K(!new)>(cands: map<K, Time>, locked: set<K>, limit: nat, rest: set<K>, picked: seq<K>)
    requires Partition(cands, cands.Keys - locked, rest, picked)
    requires |picked| <= limit && (|picked| < limit ==> rest == {})
    ensures Picks(cands, locked, limit, Elems(picked))
  {
    NoDupSize(picked);
    forall a, b | a in Elems(picked) && b in cands.Keys - locked && b !in Elems(picked)
      ensures cands[a] <= cands[b]
    {
      assert a in picked && b in rest;
    }
  }

  // Some answer is always allowed.
  lemma {:induction false} PicksExist<K(!new)>(cands: map<K, Time>, locked: set<K>, limit: nat, rest: set<K>, chosen: seq<K>)
      returns (picked: seq<K>)
    requires Partition(cands, cands.Keys - locked, rest, chosen) && |chosen| <= limit
    ensures Picks(cands, locked, limit, Elems(picked))
    decreases |rest|
  {
    if |chosen| < limit && rest != {} {
      var k := OldestExists(cands, rest);
      PartitionStep(cands, cands.Keys - locked, rest, chosen, k);
      picked := PicksExist(cands, locked, limit, rest - {k}, chosen + [k]);
    } else {
      picked := chosen;
      PartitionPicks(cands, locked, limit, rest, chosen);
    }
  }

  lemma {:induction false} OldestExists<K>(cands: map<K, Time>, among: set<K>) returns (k: K)
    requires among != {} && among <= cands.Keys
    ensures k in among && forall x | x in among :: cands[k] <= cands[x]
    decreases |among|
  {
    k :| k in among;
    if among != {k} {
      assert among - {k} != {};
      var m := OldestExists(cands, among - {k});
      if cands[m] < cands[k] {
        k := m;
      }
    }
  }

  method PickOldest<K(!new, ==)>(cands: map<K, Time>, locked: set<K>, limit: nat) returns (picked: seq<K>)
    ensures NoDup(picked)
    ensures forall k | k in picked :: k in cands
    ensures Sorted(cands, picked)
    ensures Picks(cands, locked, limit, Elems(picked))
  {
    picked := [];
    ghost var free := cands.Keys - locked;
    var rest := cands.Keys - locked;
    while |picked| < limit && rest != {}
      invariant |picked| <= limit
      invariant Partition(cands, free, rest, picked)
      decreases |rest|
    {
      var k := Oldest(cands, rest);
      PartitionStep(cands, free, rest, picked, k);
      picked := picked + [k];
      rest := rest - {k};
    }
    PartitionPicks(cands, locked, limit, rest, picked);
  }
}
