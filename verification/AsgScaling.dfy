/** Distributing a number of nodes over the auto scaling groups of a node pool. */
module AsgScaling {
  import opened Division
  import opened Strings

  datatype Group = Group(name: string, desired: int, min: int, max: int)

  function Total(s: seq<Group>): int {
    if s == [] then 0 else Total(s[..|s| - 1]) + s[|s| - 1].desired
  }

  lemma {:induction false} TotalSet(s: seq<Group>, k: nat, desired: int)
    requires k < |s|
    ensures Total(s[k := s[k].(desired := desired)]) == Total(s) + desired - s[k].desired
  {
    var t := s[k := s[k].(desired := desired)];
    if k == |s| - 1 {
      assert t[..|t| - 1] == s[..|s| - 1];
    } else {
      TotalSet(s[..|s| - 1], k, desired);
      assert t[..|t| - 1] == s[..|s| - 1][k := s[k].(desired := desired)];
    }
  }

  lemma {:induction false} TotalJoin(a: seq<Group>, b: seq<Group>)
    ensures Total(a + b) == Total(a) + Total(b)
  {
    if b == [] {
      assert a + b == a;
    } else {
      TotalJoin(a, b[..|b| - 1]);
      assert (a + b)[..|a + b| - 1] == a + b[..|b| - 1];
    }
  }

  /******* Sorting *******/

  /** The order in which groups are served: when growing, the smallest first and the empty
      ones last; when shrinking, the largest first. */
  predicate NotAfter(growing: bool, a: Group, b: Group) {
    if growing then b.desired == 0 || (a.desired != 0 && a.desired <= b.desired) else a.desired >= b.desired
  }

  ghost predicate Ordered(growing: bool, s: seq<Group>) {
    forall i, j :: 0 <= i < j < |s| ==> NotAfter(growing, s[i], s[j])
  }

  /** Growing begins with the smallest groups; the empty ones come last. */
  ghost predicate SmallestFirst(s: seq<Group>) {
    forall i, j :: 0 <= i < j < |s| && s[j].desired != 0 ==> s[i].desired != 0 && s[i].desired <= s[j].desired
  }

  ghost predicate LargestFirst(s: seq<Group>) {
    forall i, j :: 0 <= i < j < |s| ==> s[j].desired <= s[i].desired
  }

  /** The same groups, in another order. */
  ghost predicate Rearranged(s: seq<Group>, r: seq<Group>) {
    multiset(r) == multiset(s) && |r| == |s| && Total(r) == Total(s)
  }

  method Sort(growing: bool, s: seq<Group>) returns (r: seq<Group>)
    ensures Ordered(growing, r) && Rearranged(s, r)
  {
    r := [];
    for i := 0 to |s|
      invariant Ordered(growing, r) && Rearranged(s[..i], r)
    {
      assert s[..i + 1] == s[..i] + [s[i]];
      TotalJoin(s[..i], [s[i]]);
      r := Insert(growing, r, s[i]);
    }
    assert s[..|s|] == s;
  }

  method Insert(growing: bool, s: seq<Group>, x: Group) returns (r: seq<Group>)
    requires Ordered(growing, s)
    ensures Ordered(growing, r) && Rearranged(s + [x], r)
  {
    var i := 0;
    while i < |s| && NotAfter(growing, s[i], x)
      invariant 0 <= i <= |s|
      invariant forall j :: 0 <= j < i ==> NotAfter(growing, s[j], x)
    {
      i := i + 1;
    }
    r := s[..i] + [x] + s[i..];
    Inserted(growing, s, i, x, r);
  }

  lemma Inserted(growing: bool, s: seq<Group>, i: nat, x: Group, r: seq<Group>)
    requires Ordered(growing, s) && i <= |s| && r == s[..i] + [x] + s[i..]
    requires forall j :: 0 <= j < i ==> NotAfter(growing, s[j], x)
    requires i < |s| ==> !NotAfter(growing, s[i], x)
    ensures Ordered(growing, r) && Rearranged(s + [x], r)
  {
    InsertedOrdered(growing, s, i, x, r);
    InsertedSame(s, i, x, r);
  }

  lemma InsertedSame(s: seq<Group>, i: nat, x: Group, r: seq<Group>)
    requires i <= |s| && r == s[..i] + [x] + s[i..]
    ensures Rearranged(s + [x], r)
  {
    assert s == s[..i] + s[i..];
    TotalJoin(s[..i] + [x], s[i..]);
    TotalJoin(s[..i], [x]);
    TotalJoin(s[..i], s[i..]);
    TotalJoin(s, [x]);
  }

  lemma InsertedOrdered(growing: bool, s: seq<Group>, i: nat, x: Group, r: seq<Group>)
    requires Ordered(growing, s) && i <= |s| && r == s[..i] + [x] + s[i..]
    requires forall j :: 0 <= j < i ==> NotAfter(growing, s[j], x)
    requires i < |s| ==> !NotAfter(growing, s[i], x)
    ensures Ordered(growing, r)
  {
    assert forall j :: i < j < |s| ==> NotAfter(growing, s[i], s[j]);
    assert forall j :: i <= j < |s| ==> NotAfter(growing, x, s[j]);
    InsertedAt(s, i, x, r);
  }

  /******* Distributing *******/

  /** What the k-th of n groups gets of an amount that is dealt out one by one. */
  function Share(amount: nat, n: nat, k: nat): nat
    requires k < n
  {
    amount / n + if k < amount % n then 1 else 0
  }

  function Signed(growing: bool, x: int): int {
    if growing then x else -x
  }

  /** Everybody has got `rounds`, and the first k one more. */
  ghost predicate Dealt(growing: bool, s: seq<Group>, r: seq<Group>, rounds: nat, k: nat) {
    && |r| == |s|
    && forall j :: 0 <= j < |s| ==>
         r[j] == s[j].(desired := s[j].desired + Signed(growing, rounds + if j < k then 1 else 0))
  }

  lemma DealtNext(growing: bool, s: seq<Group>, r: seq<Group>, rounds: nat, k: nat)
    requires Dealt(growing, s, r, rounds, k) && k < |s|
    ensures var t := r[k := r[k].(desired := r[k].desired + Signed(growing, 1))];
      && Dealt(growing, s, t, rounds, k + 1) && Total(t) == Total(r) + Signed(growing, 1)
      && (k + 1 == |s| ==> Dealt(growing, s, t, rounds + 1, 0))
  {
    TotalSet(r, k, r[k].desired + Signed(growing, 1));
  }

  /** The loops that add or remove one node at a time, as documented: the groups change. */
  method Deal(growing: bool, s: seq<Group>, amount: nat) returns (r: seq<Group>)
    requires s != []
    ensures |r| == |s| && Total(r) == Total(s) + Signed(growing, amount)
    ensures forall k :: 0 <= k < |s| ==> r[k] == s[k].(desired := s[k].desired + Signed(growing, Share(amount, |s|, k)))
  {
    r := s;
    var left := amount;
    ghost var rounds, full := 0, 0;
    while true
      invariant left >= 0 && full == rounds * |s| && amount == full + left
      invariant Dealt(growing, s, r, rounds, 0) && Total(r) == Total(s) + Signed(growing, amount - left)
      decreases left
    {
      var k := 0;
      ghost var before := left;
      while k < |r|
        invariant 0 <= k <= |s| && left == before - k && left >= 0
        invariant Dealt(growing, s, r, rounds, k) && (k == |s| ==> Dealt(growing, s, r, rounds + 1, 0))
        invariant Total(r) == Total(s) + Signed(growing, amount - left)
      {
        if left <= 0 {
          Quotient(amount, |s|, rounds, full, k);
          return;
        }
        DealtNext(growing, s, r, rounds, k);
        r := r[k := r[k].(desired := r[k].desired + Signed(growing, 1))];
        left := left - 1;
        k := k + 1;
      }
      OneMoreRound(rounds, |s|);
      rounds, full := rounds + 1, full + |s|;
    }
  }

  lemma OneMoreRound(rounds: nat, n: nat)
    ensures (rounds + 1) * n == rounds * n + n
  {
  }

  lemma Quotient(amount: nat, n: nat, rounds: nat, full: nat, k: nat)
    requires n > 0 && k < n && full == rounds * n && amount == full + k
    ensures amount / n == rounds && amount % n == k
  {
    DivIs(amount, n, rounds);
    assert amount == (amount / n) * n + amount % n;
  }

  /** Dealing out is fair: nobody gets two more than another, and who gets more comes
      first. */
  lemma FairShares(amount: nat, n: nat, j: nat, k: nat)
    requires j < n && k < n
    ensures Share(amount, n, k) <= Share(amount, n, j) + 1
    ensures Share(amount, n, j) > Share(amount, n, k) ==> j < k
  {
  }

  /******* Requests *******/

  /** The request for a group widens its limits where they exclude the new capacity. */
  function Request(g: Group): (r: Group)
    ensures r.name == g.name && r.desired == g.desired && r.min <= r.desired <= r.max && Widened(g, r)
  {
    g.(min := if g.desired < g.min then g.desired else g.min, max := if g.desired > g.max then g.desired else g.max)
  }

  /** A limit stays, or is moved away just as far as the capacity. */
  predicate Widened(g: Group, r: Group) {
    (r.min == g.min || r.desired == r.min < g.min) && (r.max == g.max || r.desired == r.max > g.max)
  }

  method Requests(s: seq<Group>) returns (r: seq<Group>)
    ensures |r| == |s| && (forall k :: 0 <= k < |s| ==> r[k] == Request(s[k])) && Total(r) == Total(s)
  {
    r := [];
    for k := 0 to |s|
      invariant |r| == k && (forall j :: 0 <= j < k ==> r[j] == Request(s[j])) && Total(r) == Total(s[..k])
    {
      assert s[..k + 1] == s[..k] + [s[k]];
      TotalJoin(s[..k], [s[k]]);
      TotalJoin(r, [Request(s[k])]);
      r := r + [Request(s[k])];
    }
    assert s[..|s|] == s;
  }

  /** The k-th request changes the k-th group by its share, and its limits no more than that
      takes. */
  ghost predicate Changes(growing: bool, amount: nat, s: seq<Group>, r: seq<Group>)
    requires |s| == |r|
  {
    forall k :: 0 <= k < |s| ==>
      && r[k].desired == s[k].desired + Signed(growing, Share(amount, |s|, k))
      && r[k].name == s[k].name && Widened(s[k], r[k])
  }

  method CurrentTotal(s: seq<Group>) returns (desired: int)
    ensures desired == Total(s)
  {
    desired := 0;
    for i := 0 to |s|
      invariant desired == Total(s[..i])
    {
      assert s[..i + 1][..i] == s[..i];
      desired := desired + s[i].desired;
    }
    assert s[..|s|] == s;
  }

  /** `Scale` as documented. Afterwards the capacities add up to the number of replicas;
      the groups that change by one more than others are the smallest that are not empty,
      or the largest when shrinking; and the limits of every request hold. */
  method Scale(groups: seq<Group>, replicas: int) returns (requests: seq<Group>, ghost sorted: seq<Group>)
    requires groups != []
    ensures Total(groups) == replicas ==> requests == []
    ensures Total(groups) != replicas ==>
      && |requests| == |sorted| == |groups| && Total(requests) == replicas
      && Rearranged(groups, sorted)
      && (if replicas > Total(groups) then SmallestFirst(sorted) else LargestFirst(sorted))
      && Changes(replicas > Total(groups), Distance(replicas, Total(groups)), sorted, requests)
    ensures forall k :: 0 <= k < |requests| ==> requests[k].min <= requests[k].desired <= requests[k].max
  {
    var desired := CurrentTotal(groups);
    var diff := replicas - desired;
    if diff == 0 {
      return [], [];
    }
    var order := Sort(diff > 0, groups);
    sorted := order;
    order := Deal(diff > 0, order, Distance(replicas, desired));
    requests := Requests(order);
  }

  function Distance(a: int, b: int): nat {
    if a >= b then a - b else b - a
  }

  /** Capacities once the requests have been served; without requests they stay. */
  function NewTotal(groups: seq<Group>, requests: seq<Group>): int {
    if requests == [] then Total(groups) else Total(requests)
  }

  /** `Scale` as written: the loops change copies of the groups, so the requests ask for
      the capacities that the groups already have, and the number of replicas is reached
      exactly if it was there before. */
  method ScaleAsWritten(groups: seq<Group>, replicas: int) returns (requests: seq<Group>, ghost sorted: seq<Group>)
    requires groups != []
    ensures NewTotal(groups, requests) == replicas <==> Total(groups) == replicas
    ensures requests != [] ==>
      Rearranged(groups, sorted) && |requests| == |sorted| && forall k :: 0 <= k < |sorted| ==>
        requests[k] == Request(sorted[k])
  {
    var desired := CurrentTotal(groups);
    var diff := replicas - desired;
    if diff == 0 {
      return [], [];
    }
    var order := Sort(diff > 0, groups);
    sorted := order;
    var left := Distance(replicas, desired);
    while left > 0
      decreases left
    {
      ghost var before := left;
      var k := 0;
      while k < |order| && left > 0
        invariant 0 <= k <= |order| && left == before - k && left >= 0
      {
        var copy := order[k];
        copy := copy.(desired := copy.desired + Signed(diff > 0, 1));
        left := left - 1;
        k := k + 1;
      }
    }
    requests := Requests(order);
  }

  /** Shrinking takes the same number from all groups, give or take one, and may so ask
      for less than nothing. It does not exactly if the smallest group, and the smallest
      of those that give one more, have enough. */
  lemma ShrinkingStaysPositive(s: seq<Group>, amount: nat)
    requires s != [] && Ordered(false, s)
    ensures var q, m := amount / |s|, amount % |s|;
      (forall k :: 0 <= k < |s| ==> s[k].desired - Share(amount, |s|, k) >= 0) <==>
      s[|s| - 1].desired >= q && (m > 0 ==> s[m - 1].desired >= q + 1)
  {
    var q, m := amount / |s|, amount % |s|;
    assert m < |s|;
    if s[|s| - 1].desired >= q && (m > 0 ==> s[m - 1].desired >= q + 1) {
      forall k | 0 <= k < |s| ensures s[k].desired - Share(amount, |s|, k) >= 0 {
        assert k < |s| - 1 ==> NotAfter(false, s[k], s[|s| - 1]);
        assert k < m - 1 ==> NotAfter(false, s[k], s[m - 1]);
      }
    } else {
      var k := if s[|s| - 1].desired < q then |s| - 1 else m - 1;
      assert s[k].desired - Share(amount, |s|, k) < 0;
    }
  }
}
