// Comparing the published addresses of an ingress with the new ones.
module Status {
  import opened Ordering

  // A load balancer address.
  datatype Address = Address(ip: string, hostname: string)

  // By hostname, then by IP.
  predicate Before(a: Address, b: Address) {
    if Less(a.hostname, b.hostname) then true
    else if Less(b.hostname, a.hostname) then false
    else Less(a.ip, b.ip)
  }

  // A strict total order: no two different addresses are left unordered.
  lemma BeforeIsTotal(a: Address, b: Address)
    ensures Before(a, b) || Before(b, a) || a == b
    ensures !(Before(a, b) && Before(b, a)) && !Before(a, a)
    ensures a.hostname != b.hostname ==> (Before(a, b) <==> Less(a.hostname, b.hostname))
  {
    LessTotal(a.hostname, b.hostname);
    LessTotal(a.ip, b.ip);
    LessTotal(a.hostname, a.hostname);
    LessTotal(a.ip, a.ip);
  }

  lemma BeforeIsTransitive(a: Address, b: Address, c: Address)
    requires Before(a, b) && Before(b, c)
    ensures Before(a, c)
  {
    LessTotal(a.hostname, b.hostname);
    LessTotal(b.hostname, c.hostname);
    LessTotal(a.hostname, c.hostname);
    if a.hostname == b.hostname == c.hostname {
      LessTransitive(a.ip, b.ip, c.ip);
    } else if a.hostname != b.hostname && b.hostname != c.hostname {
      LessTransitive(a.hostname, b.hostname, c.hostname);
    }
  }

  lemma BeforeIsStrictWeak()
    ensures StrictWeakOrder(Before)
  {
    forall x, y
      ensures Before(x, y) ==> !Before(y, x)
    {
      BeforeIsTotal(x, y);
    }
    forall x, y, z | Before(x, z)
      ensures Before(x, y) || Before(y, z)
    {
      BeforeIsTotal(x, y);
      BeforeIsTotal(y, z);
      if Before(y, x) {
        BeforeIsTransitive(y, x, z);
      }
    }
  }

  method IngressSliceEqual(lhs: seq<Address>, rhs: seq<Address>) returns (equal: bool)
    ensures equal <==> lhs == rhs
  {
    if |lhs| != |rhs| {
      return false;
    }
    for i := 0 to |lhs|
      invariant lhs[..i] == rhs[..i]
    {
      if lhs[i].ip != rhs[i].ip {
        return false;
      }
      if lhs[i].hostname != rhs[i].hostname {
        return false;
      }
    }
    assert lhs == lhs[..|lhs|] && rhs == rhs[..|rhs|];
    equal := true;
  }

  // Sorting makes equal exactly the lists with the same addresses.
  lemma SortedEqualIff(xs: seq<Address>, ys: seq<Address>)
    ensures StableSort(xs, Before) == StableSort(ys, Before) <==> multiset(xs) == multiset(ys)
  {
    var s, t := StableSort(xs, Before), StableSort(ys, Before);
    SortPermutes(xs, Before);
    SortPermutes(ys, Before);
    BeforeIsStrictWeak();
    SortAscending(xs, Before);
    SortAscending(ys, Before);
    if multiset(xs) == multiset(ys) {
      forall x, y | x in s && y in s && !Before(x, y) && !Before(y, x)
        ensures x == y
      {
        BeforeIsTotal(x, y);
      }
      AscendingUnique(s, t, Before);
    }
  }

  // The ingresses whose status updateStatus rewrites: exactly those whose
  // addresses are not already the new ones, whatever the order of either list.
  method UpdateStatus(current: seq<seq<Address>>, addresses: seq<Address>) returns (updates: seq<bool>)
    ensures |updates| == |current|
    ensures forall i | 0 <= i < |current| :: updates[i] <==> multiset(current[i]) != multiset(addresses)
  {
    var wanted := StableSort(addresses, Before);
    updates := [];
    for i := 0 to |current|
      invariant |updates| == i
      invariant forall k | 0 <= k < i :: updates[k] <==> multiset(current[k]) != multiset(addresses)
    {
      var equal := IngressSliceEqual(StableSort(current[i], Before), wanted);
      SortedEqualIff(current[i], addresses);
      updates := updates + [!equal];
    }
  }
}
