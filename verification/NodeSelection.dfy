/** Which outdated nodes a pass of the rolling update cordons.

    `ComputeNodesList` pairs nodes that have volumes with new nodes in the same
    failure domain; it picks the partners out of a Go map, in whatever order the
    runtime iterates it. `Selection` says what comes out, without a map. */
module NodeSelection {
  import opened NodePools

  /******* Splitting node lists *******/

  function OldNodes(nodes: seq<Node>, generation: int): seq<Node> {
    if nodes == [] then [] else
      OldNodes(nodes[..|nodes| - 1], generation) +
      if nodes[|nodes| - 1].generation != generation then [nodes[|nodes| - 1]] else []
  }

  function NewNodes(nodes: seq<Node>, generation: int): seq<Node> {
    if nodes == [] then [] else
      NewNodes(nodes[..|nodes| - 1], generation) +
      if nodes[|nodes| - 1].generation == generation then [nodes[|nodes| - 1]] else []
  }

  function WithVolumes(nodes: seq<Node>, volumes: bool): seq<Node> {
    if nodes == [] then [] else
      WithVolumes(nodes[..|nodes| - 1], volumes) +
      if nodes[|nodes| - 1].volumes == volumes then [nodes[|nodes| - 1]] else []
  }

  method SplitOldNewNodes(pool: Snapshot) returns (oldNodes: seq<Node>, newNodes: seq<Node>)
    ensures oldNodes == OldNodes(pool.nodes, pool.generation)
    ensures newNodes == NewNodes(pool.nodes, pool.generation)
  {
    oldNodes, newNodes := [], [];
    for i := 0 to |pool.nodes|
      invariant oldNodes == OldNodes(pool.nodes[..i], pool.generation)
      invariant newNodes == NewNodes(pool.nodes[..i], pool.generation)
    {
      assert pool.nodes[..i + 1][..i] == pool.nodes[..i];
      if pool.nodes[i].generation != pool.generation {
        oldNodes := oldNodes + [pool.nodes[i]];
      } else {
        newNodes := newNodes + [pool.nodes[i]];
      }
    }
    assert pool.nodes[..|pool.nodes|] == pool.nodes;
  }

  method SplitVolumeNoVolumeAttachedNodes(nodes: seq<Node>) returns (attached: seq<Node>, notAttached: seq<Node>)
    ensures attached == WithVolumes(nodes, true)
    ensures notAttached == WithVolumes(nodes, false)
  {
    attached, notAttached := [], [];
    for i := 0 to |nodes|
      invariant attached == WithVolumes(nodes[..i], true)
      invariant notAttached == WithVolumes(nodes[..i], false)
    {
      assert nodes[..i + 1][..i] == nodes[..i];
      if nodes[i].volumes {
        attached := attached + [nodes[i]];
      } else {
        notAttached := notAttached + [nodes[i]];
      }
    }
    assert nodes[..|nodes|] == nodes;
  }

  /******* Matching by failure domain *******/

  function ByProvider(nodes: seq<Node>): map<string, Node> {
    if nodes == [] then map[] else ByProvider(nodes[..|nodes| - 1])[nodes[|nodes| - 1].id := nodes[|nodes| - 1]]
  }

  function InDomain(m: map<string, Node>, domain: string): set<string> {
    set id | id in m && m[id].domain == domain
  }

  function CountDomain(nodes: seq<Node>, domain: string): nat {
    if nodes == [] then 0 else
      CountDomain(nodes[..|nodes| - 1], domain) + if nodes[|nodes| - 1].domain == domain then 1 else 0
  }

  datatype Scan = Scan(matched: seq<Node>, unmatched: seq<Node>)

  /** The nodes with volumes, in order, until `surge` of them have found a
      partner: a node is matched while its domain has a new node to spare. */
  function Scanned(attached: seq<Node>, partners: map<string, Node>, surge: nat): Scan {
    if attached == [] then Scan([], []) else
      var done := Scanned(attached[..|attached| - 1], partners, surge);
      var o := attached[|attached| - 1];
      if |done.matched| == surge then done
      else if CountDomain(done.matched, o.domain) < |InDomain(partners, o.domain)|
      then done.(matched := done.matched + [o])
      else done.(unmatched := done.unmatched + [o])
  }

  datatype Choice = Choice(toCordon: seq<Node>, unmatched: seq<Node>)

  function Take<T>(s: seq<T>, n: int): seq<T> {
    if n <= 0 then [] else if n < |s| then s[..n] else s
  }

  /** Matched nodes first, then nodes without volumes, then unmatched ones. */
  function Chosen(scan: Scan, rest: seq<Node>, surge: nat): Choice {
    if |scan.matched| == surge then Choice(scan.matched, []) else
      var toCordon := scan.matched + Take(rest, surge - |scan.matched|);
      Choice(toCordon, Take(scan.unmatched, surge - |toCordon|))
  }

  function Selection(pool: Snapshot, surge: nat): Choice {
    var oldNodes := OldNodes(pool.nodes, pool.generation);
    var partners := ByProvider(NewNodes(pool.nodes, pool.generation));
    Chosen(Scanned(WithVolumes(oldNodes, true), partners, surge), WithVolumes(oldNodes, false), surge)
  }

  /** Whichever partners the map iteration offers, the outcome is `Selection`. */
  method ComputeNodesList(pool: Snapshot, surge: nat) returns (toCordon: seq<Node>, unmatchedNodes: seq<Node>)
    requires surge >= 1
    ensures Choice(toCordon, unmatchedNodes) == Selection(pool, surge)
    ensures DistinctIds(pool.nodes) ==> WellChosen(pool, surge, Choice(toCordon, unmatchedNodes))
  {
    var oldNodes, newNodes := SplitOldNewNodes(pool);
    toCordon, unmatchedNodes := ChooseNodes(oldNodes, newNodes, surge);
    if DistinctIds(pool.nodes) {
      SelectionWellChosen(pool, surge);
    }
  }

  method ChooseNodes(oldNodes: seq<Node>, newNodes: seq<Node>, surge: nat)
    returns (toCordon: seq<Node>, unmatchedNodes: seq<Node>)
    requires surge >= 1
    ensures var scan := Scanned(WithVolumes(oldNodes, true), ByProvider(newNodes), surge);
      Choice(toCordon, unmatchedNodes) == Chosen(scan, WithVolumes(oldNodes, false), surge)
  {
    var partners := map[];
    for i := 0 to |newNodes|
      invariant partners == ByProvider(newNodes[..i])
    {
      assert newNodes[..i + 1][..i] == newNodes[..i];
      partners := partners[newNodes[i].id := newNodes[i]];
    }
    assert newNodes[..|newNodes|] == newNodes;
    var attached, notAttached := SplitVolumeNoVolumeAttachedNodes(oldNodes);
    var complete;
    toCordon, unmatchedNodes, complete := MatchByDomain(attached, partners, surge);
    if complete {
      return toCordon, [];
    }
    var extra := if surge - |toCordon| < |notAttached| then surge - |toCordon| else |notAttached|;
    toCordon := toCordon + notAttached[..extra];
    extra := if surge - |toCordon| < |unmatchedNodes| then surge - |toCordon| else |unmatchedNodes|;
    unmatchedNodes := unmatchedNodes[..extra];
  }

  method MatchByDomain(attached: seq<Node>, partners: map<string, Node>, surge: nat)
    returns (matched: seq<Node>, unmatched: seq<Node>, complete: bool)
    requires surge >= 1
    ensures Scan(matched, unmatched) == Scanned(attached, partners, surge)
    ensures |matched| <= surge && (complete <==> |matched| == surge)
  {
    matched, unmatched, complete := [], [], false;
    var free := partners;
    for i := 0 to |attached|
      invariant Scan(matched, unmatched) == Scanned(attached[..i], partners, surge)
      invariant |matched| < surge
      invariant Spare(free, partners, matched)
    {
      var o := attached[i];
      ScanNext(attached, i, partners, surge);
      assert |InDomain(free, o.domain)| == |InDomain(partners, o.domain)| - CountDomain(matched, o.domain);
      if id :| id in free && free[id].domain == o.domain {
        TakePartner(free, id, partners, matched, o);
        free := free - {id};
        matched := matched + [o];
      } else {
        assert InDomain(free, o.domain) == {};
        unmatched := unmatched + [o];
      }
      if |matched| == surge {
        ScanStops(attached, i + 1, partners, surge);
        return matched, unmatched, true;
      }
    }
    assert attached[..|attached|] == attached;
  }

  /** The new nodes that no matched node has taken, counted by failure domain. */
  ghost predicate Spare(free: map<string, Node>, partners: map<string, Node>, matched: seq<Node>) {
    forall d :: |InDomain(free, d)| == |InDomain(partners, d)| - CountDomain(matched, d)
  }

  lemma ScanNext(attached: seq<Node>, i: nat, partners: map<string, Node>, surge: nat)
    requires i < |attached|
    ensures var done := Scanned(attached[..i], partners, surge);
      Scanned(attached[..i + 1], partners, surge) ==
      if |done.matched| == surge then done
      else if CountDomain(done.matched, attached[i].domain) < |InDomain(partners, attached[i].domain)|
      then done.(matched := done.matched + [attached[i]])
      else done.(unmatched := done.unmatched + [attached[i]])
  {
    assert attached[..i + 1][..i] == attached[..i];
  }

  lemma TakePartner(free: map<string, Node>, id: string, partners: map<string, Node>, matched: seq<Node>, o: Node)
    requires id in free && free[id].domain == o.domain && Spare(free, partners, matched)
    ensures Spare(free - {id}, partners, matched + [o])
    ensures |InDomain(free, o.domain)| > 0
  {
    assert id in InDomain(free, o.domain);
    assert (matched + [o])[..|matched|] == matched;
    forall d ensures |InDomain(free - {id}, d)| == |InDomain(partners, d)| - CountDomain(matched + [o], d) {
      assert InDomain(free - {id}, d) == InDomain(free, d) - if d == o.domain then {id} else {};
    }
  }

  /** Nothing after the surge is reached changes the outcome. */
  lemma {:induction false} ScanStops(attached: seq<Node>, i: nat, partners: map<string, Node>, surge: nat)
    requires i <= |attached| && |Scanned(attached[..i], partners, surge).matched| == surge
    ensures Scanned(attached, partners, surge) == Scanned(attached[..i], partners, surge)
  {
    if i == |attached| {
      assert attached[..i] == attached;
    } else {
      var init := attached[..|attached| - 1];
      assert init[..i] == attached[..i];
      ScanStops(init, i, partners, surge);
    }
  }

  /******* What the selection guarantees *******/

  /** Matched and unmatched nodes are part of the scanned ones; short of the surge
      they are all of them. */
  lemma {:induction false} ScanParts(attached: seq<Node>, partners: map<string, Node>, surge: nat)
    ensures var s := Scanned(attached, partners, surge);
      && |s.matched| <= surge
      && multiset(s.matched) + multiset(s.unmatched) <= multiset(attached)
      && (|s.matched| < surge ==> |s.matched| + |s.unmatched| == |attached|)
  {
    if attached != [] {
      var init, o := attached[..|attached| - 1], attached[|attached| - 1];
      ScanParts(init, partners, surge);
      assert attached == init + [o];
      assert multiset(attached) == multiset(init) + multiset{o};
      var s := Scanned(init, partners, surge);
      assert multiset(s.matched + [o]) == multiset(s.matched) + multiset{o};
      assert multiset(s.unmatched + [o]) == multiset(s.unmatched) + multiset{o};
    }
  }

  /** A domain lends out no more than the new nodes it has, and all of them before
      a node goes unmatched. */
  lemma {:induction false} ScanCounts(attached: seq<Node>, partners: map<string, Node>, surge: nat, d: string)
    ensures var s := Scanned(attached, partners, surge);
      && CountDomain(s.matched, d) <= |InDomain(partners, d)|
      && ((exists u :: u in s.unmatched && u.domain == d) ==> CountDomain(s.matched, d) == |InDomain(partners, d)|)
  {
    if attached != [] {
      var init, o := attached[..|attached| - 1], attached[|attached| - 1];
      ScanCounts(init, partners, surge, d);
      var s := Scanned(init, partners, surge);
      assert (s.matched + [o])[..|s.matched|] == s.matched;
    }
  }

  lemma {:induction false} VolumeSplit(nodes: seq<Node>)
    ensures multiset(WithVolumes(nodes, true)) + multiset(WithVolumes(nodes, false)) == multiset(nodes)
    ensures |WithVolumes(nodes, true)| + |WithVolumes(nodes, false)| == |nodes|
  {
    if nodes != [] {
      var init, last := nodes[..|nodes| - 1], nodes[|nodes| - 1];
      VolumeSplit(init);
      assert nodes == init + [last];
      assert multiset(nodes) == multiset(init) + multiset{last};
      if last.volumes {
        assert WithVolumes(nodes, true) == WithVolumes(init, true) + [last];
        assert WithVolumes(nodes, false) == WithVolumes(init, false);
      } else {
        assert WithVolumes(nodes, true) == WithVolumes(init, true);
        assert WithVolumes(nodes, false) == WithVolumes(init, false) + [last];
      }
    }
  }

  lemma TakeFacts<T>(s: seq<T>, n: int)
    ensures Take(s, n) <= s
    ensures |Take(s, n)| == Max(0, Min(n, |s|))
    ensures multiset(Take(s, n)) <= multiset(s)
  {
    assert s == Take(s, n) + s[|Take(s, n)|..];
  }

  /** The two results are disjoint parts of the outdated nodes and together are
      exactly `surge` nodes, or all outdated nodes if there are fewer. */
  lemma SelectionSize(pool: Snapshot, surge: nat)
    ensures var c := Selection(pool, surge);
      var oldNodes := OldNodes(pool.nodes, pool.generation);
      && multiset(c.toCordon) + multiset(c.unmatched) <= multiset(oldNodes)
      && |c.toCordon| + |c.unmatched| == Min(surge, |oldNodes|)
  {
    var oldNodes := OldNodes(pool.nodes, pool.generation);
    var partners := ByProvider(NewNodes(pool.nodes, pool.generation));
    VolumeSplit(oldNodes);
    ScanParts(WithVolumes(oldNodes, true), partners, surge);
    var attached, rest := WithVolumes(oldNodes, true), WithVolumes(oldNodes, false);
    ChosenSize(Scanned(attached, partners, surge), attached, rest, surge);
  }

  lemma ChosenSize(s: Scan, attached: seq<Node>, rest: seq<Node>, surge: nat)
    requires |s.matched| <= surge && multiset(s.matched) + multiset(s.unmatched) <= multiset(attached)
    requires |s.matched| < surge ==> |s.matched| + |s.unmatched| == |attached|
    ensures var c := Chosen(s, rest, surge);
      && multiset(c.toCordon) + multiset(c.unmatched) <= multiset(attached) + multiset(rest)
      && |c.toCordon| + |c.unmatched| == Min(surge, |attached| + |rest|)
  {
    SizeOf(s.matched, s.unmatched, attached);
    var more := Take(rest, surge - |s.matched|);
    TakeFacts(rest, surge - |s.matched|);
    TakeFacts(s.unmatched, surge - |s.matched + more|);
    assert multiset(s.matched + more) == multiset(s.matched) + multiset(more);
  }

  lemma SizeOf<T>(a: seq<T>, b: seq<T>, c: seq<T>)
    requires multiset(a) + multiset(b) <= multiset(c)
    ensures |a| + |b| <= |c|
  {
    assert |multiset(c) - (multiset(a) + multiset(b))| == |c| - (|a| + |b|);
  }

  /** A node with volumes is left unmatched only if the cordoned nodes have used
      up every new node of its failure domain. */
  lemma SelectionMatches(pool: Snapshot, surge: nat, d: string)
    ensures var partners := ByProvider(NewNodes(pool.nodes, pool.generation));
      var c := Selection(pool, surge);
      && CountDomain(WithVolumes(c.toCordon, true), d) <= |InDomain(partners, d)|
      && ((exists u :: u in c.unmatched && u.domain == d) ==>
            CountDomain(WithVolumes(c.toCordon, true), d) == |InDomain(partners, d)|)
  {
    var oldNodes := OldNodes(pool.nodes, pool.generation);
    var partners := ByProvider(NewNodes(pool.nodes, pool.generation));
    var attached, rest := WithVolumes(oldNodes, true), WithVolumes(oldNodes, false);
    ScanCounts(attached, partners, surge, d);
    Filtered(oldNodes, true);
    Filtered(oldNodes, false);
    ScanIn(attached, partners, surge);
    ChosenVolumes(Scanned(attached, partners, surge), rest, surge);
  }

  lemma ChosenVolumes(s: Scan, rest: seq<Node>, surge: nat)
    requires forall n :: n in s.matched ==> n.volumes
    requires forall n :: n in rest ==> !n.volumes
    ensures WithVolumes(Chosen(s, rest, surge).toCordon, true) == s.matched
    ensures forall u :: u in Chosen(s, rest, surge).unmatched ==> u in s.unmatched
  {
    var more := if |s.matched| == surge then [] else Take(rest, surge - |s.matched|);
    assert forall n :: n in more ==> n in rest;
    FilterSplit(s.matched, more);
    assert s.matched + [] == s.matched;
  }

  lemma {:induction false} ScanIn(attached: seq<Node>, partners: map<string, Node>, surge: nat)
    ensures forall n :: n in Scanned(attached, partners, surge).matched ==> n in attached
    ensures forall n :: n in Scanned(attached, partners, surge).unmatched ==> n in attached
  {
    if attached != [] {
      ScanIn(attached[..|attached| - 1], partners, surge);
    }
  }

  lemma {:induction false} Filtered(nodes: seq<Node>, volumes: bool)
    ensures forall n :: n in WithVolumes(nodes, volumes) ==> n in nodes && n.volumes == volumes
  {
    if nodes != [] {
      Filtered(nodes[..|nodes| - 1], volumes);
    }
  }

  lemma {:induction false} FilterSplit(a: seq<Node>, b: seq<Node>)
    requires forall n :: n in a ==> n.volumes
    requires forall n :: n in b ==> !n.volumes
    ensures WithVolumes(a + b, true) == a
  {
    if b != [] {
      var init := b[..|b| - 1];
      assert (a + b)[..|a + b| - 1] == a + init;
      FilterSplit(a, init);
    } else {
      assert a + b == a;
      AllFiltered(a);
    }
  }

  lemma {:induction false} AllFiltered(a: seq<Node>)
    requires forall n :: n in a ==> n.volumes
    ensures WithVolumes(a, true) == a
  {
    if a != [] {
      AllFiltered(a[..|a| - 1]);
    }
  }

  /** The matched nodes have partners of their own: distinct new nodes, each in
      the failure domain of the node it stands in for. */
  lemma {:induction false} Partners(attached: seq<Node>, partners: map<string, Node>, surge: nat)
    returns (pairing: seq<string>)
    ensures Paired(Scanned(attached, partners, surge).matched, partners, pairing)
  {
    pairing := [];
    if attached != [] {
      var init := attached[..|attached| - 1];
      var o := attached[|attached| - 1];
      pairing := Partners(init, partners, surge);
      var matched := Scanned(init, partners, surge).matched;
      if |matched| != surge && CountDomain(matched, o.domain) < |InDomain(partners, o.domain)| {
        UsedCount(matched, pairing, o.domain);
        var used := Used(matched, pairing, o.domain);
        if InDomain(partners, o.domain) <= used {
          SubsetSize(InDomain(partners, o.domain), used);
        }
        var id :| id in InDomain(partners, o.domain) && id !in used;
        NotUsed(matched, partners, pairing, o.domain, id);
        pairing := pairing + [id];
      }
    }
  }

  /** So the volume-attached nodes to cordon have partners of their own. */
  lemma SelectionPartners(pool: Snapshot, surge: nat) returns (pairing: seq<string>)
    ensures var partners := ByProvider(NewNodes(pool.nodes, pool.generation));
      Paired(WithVolumes(Selection(pool, surge).toCordon, true), partners, pairing)
  {
    var oldNodes := OldNodes(pool.nodes, pool.generation);
    var partners := ByProvider(NewNodes(pool.nodes, pool.generation));
    var attached, rest := WithVolumes(oldNodes, true), WithVolumes(oldNodes, false);
    pairing := Partners(attached, partners, surge);
    Filtered(oldNodes, true);
    Filtered(oldNodes, false);
    ScanIn(attached, partners, surge);
    ChosenVolumes(Scanned(attached, partners, surge), rest, surge);
  }

  ghost predicate Paired(matched: seq<Node>, partners: map<string, Node>, pairing: seq<string>) {
    && |pairing| == |matched|
    && (forall i :: 0 <= i < |pairing| ==> pairing[i] in partners && partners[pairing[i]].domain == matched[i].domain)
    && (forall i, j :: 0 <= i < j < |pairing| ==> pairing[i] != pairing[j])
  }

  ghost function Used(matched: seq<Node>, pairing: seq<string>, d: string): set<string>
    requires |matched| == |pairing|
  {
    if matched == [] then {} else
      var last := |matched| - 1;
      Used(matched[..last], pairing[..last], d) + if matched[last].domain == d then {pairing[last]} else {}
  }

  lemma {:induction false} UsedCount(matched: seq<Node>, pairing: seq<string>, d: string)
    requires |matched| == |pairing|
    ensures |Used(matched, pairing, d)| <= CountDomain(matched, d)
  {
    if matched != [] {
      UsedCount(matched[..|matched| - 1], pairing[..|matched| - 1], d);
    }
  }

  lemma {:induction false} NotUsed(matched: seq<Node>, partners: map<string, Node>, pairing: seq<string>,
                                   d: string, id: string)
    requires Paired(matched, partners, pairing)
    requires id in partners && partners[id].domain == d && id !in Used(matched, pairing, d)
    ensures id !in pairing
  {
    if matched != [] {
      var last := |matched| - 1;
      NotUsed(matched[..last], partners, pairing[..last], d, id);
      assert pairing == pairing[..last] + [pairing[last]];
    }
  }

  /** Without volumes there is nothing to match: the first `surge` outdated nodes
      are cordoned. */
  lemma SelectionVolumeFree(pool: Snapshot, surge: nat)
    requires forall n :: n in OldNodes(pool.nodes, pool.generation) ==> !n.volumes
    ensures Selection(pool, surge) == Choice(Take(OldNodes(pool.nodes, pool.generation), surge), [])
  {
    var oldNodes := OldNodes(pool.nodes, pool.generation);
    NoneFiltered(oldNodes);
    VolumeSplit(oldNodes);
    assert |WithVolumes(oldNodes, true)| == 0;
    NoneMatched(oldNodes, surge);
  }

  lemma NoneMatched(rest: seq<Node>, surge: nat)
    ensures Chosen(Scan([], []), rest, surge) == Choice(Take(rest, surge), [])
  {
    assert [] + Take(rest, surge) == Take(rest, surge);
  }

  lemma {:induction false} NoneFiltered(nodes: seq<Node>)
    requires forall i :: 0 <= i < |nodes| ==> !nodes[i].volumes
    ensures WithVolumes(nodes, false) == nodes
  {
    if nodes != [] {
      var init, last := nodes[..|nodes| - 1], nodes[|nodes| - 1];
      NoneFiltered(init);
      assert nodes == init + [last];
    }
  }

  /******* What is chosen, in terms of the pool *******/

  /** Outdated, and with volumes or not. */
  predicate OutdatedWith(pool: Snapshot, n: Node, volumes: bool) {
    n in pool.nodes && n.generation != pool.generation && n.volumes == volumes
  }

  /** One node comes before another. */
  ghost predicate Precede(nodes: seq<Node>, x: Node, y: Node) {
    exists i, j :: 0 <= i < j < |nodes| && nodes[i] == x && nodes[j] == y
  }

  ghost function NewIn(pool: Snapshot, domain: string): set<string> {
    set n | n in pool.nodes && n.generation == pool.generation && n.domain == domain :: n.id
  }

  /** The nodes with volumes to cordon in a failure domain. */
  ghost function CordonedIn(c: Choice, domain: string): set<string> {
    set n | n in c.toCordon && n.volumes && n.domain == domain :: n.id
  }

  /** The new nodes of a failure domain are all needed for nodes with volumes. */
  ghost predicate UsedUp(pool: Snapshot, c: Choice, domain: string) {
    |CordonedIn(c, domain)| == |NewIn(pool, domain)|
  }

  /** Outdated nodes are chosen, once: to be cordoned, or with volumes and unmatched. */
  ghost predicate FromOutdated(pool: Snapshot, c: Choice) {
    && (forall n :: n in c.toCordon ==> OutdatedWith(pool, n, n.volumes))
    && (forall n :: n in c.unmatched ==> OutdatedWith(pool, n, true) && n !in c.toCordon)
    && DistinctIds(c.toCordon) && DistinctIds(c.unmatched)
  }

  /** Nodes with volumes come first, as far as there are new nodes in their failure domains;
      then nodes without volumes; unmatched nodes come last. */
  ghost predicate InTurn(pool: Snapshot, c: Choice) {
    && (forall n :: n in c.unmatched ==> UsedUp(pool, c, n.domain))
    && (c.unmatched != [] ==> forall n :: OutdatedWith(pool, n, false) ==> n in c.toCordon)
    && ((exists n :: n in c.toCordon && !n.volumes) ==>
          forall n :: OutdatedWith(pool, n, true) && n !in c.toCordon ==> UsedUp(pool, c, n.domain))
    && (forall i, j :: 0 <= i < j < |c.toCordon| && c.toCordon[j].volumes ==> c.toCordon[i].volumes)
  }

  /** Among nodes of a kind the order of the pool decides. */
  ghost predicate InOrder(pool: Snapshot, c: Choice) {
    forall x, y :: Precede(pool.nodes, x, y) && Alike(pool, x, y) ==>
      && (y in c.toCordon && (!y.volumes || x.domain == y.domain) ==> x in c.toCordon)
      && (y in c.unmatched ==> x in c.toCordon || x in c.unmatched)
  }

  ghost predicate Alike(pool: Snapshot, x: Node, y: Node) {
    x.generation != pool.generation && y.generation != pool.generation && x.volumes == y.volumes
  }

  ghost predicate WellChosen(pool: Snapshot, surge: nat, c: Choice) {
    && FromOutdated(pool, c)
    && |c.toCordon| + |c.unmatched| == Min(surge, |OutdatedIds(pool)|)
    && (forall d :: |CordonedIn(c, d)| <= |NewIn(pool, d)|)
    && InTurn(pool, c)
    && InOrder(pool, c)
  }

  ghost function OutdatedIds(pool: Snapshot): set<string> {
    set n | n in pool.nodes && n.generation != pool.generation :: n.id
  }

  lemma {:induction false} OldListed(nodes: seq<Node>, g: int)
    ensures forall n :: n in OldNodes(nodes, g) <==> n in nodes && n.generation != g
    ensures DistinctIds(nodes) ==> DistinctIds(OldNodes(nodes, g))
  {
    if nodes != [] {
      var init, last := nodes[..|nodes| - 1], nodes[|nodes| - 1];
      OldListed(init, g);
      assert nodes == init + [last];
    }
  }

  lemma {:induction false} OldInOrder(nodes: seq<Node>, g: int, x: Node, y: Node)
    requires Precede(nodes, x, y) && x.generation != g && y.generation != g
    ensures Precede(OldNodes(nodes, g), x, y)
  {
    var init, last := nodes[..|nodes| - 1], nodes[|nodes| - 1];
    var i, j :| 0 <= i < j < |nodes| && nodes[i] == x && nodes[j] == y;
    if j < |init| {
      assert init[i] == x && init[j] == y;
      OldInOrder(init, g, x, y);
      PrecedeLonger(OldNodes(init, g), OldNodes(nodes, g), x, y);
    } else {
      assert init[i] == x;
      OldListed(init, g);
      LastAfter(OldNodes(init, g), x, last);
    }
  }

  lemma {:induction false} WithInOrder(nodes: seq<Node>, v: bool, x: Node, y: Node)
    requires Precede(nodes, x, y) && x.volumes == v && y.volumes == v
    ensures Precede(WithVolumes(nodes, v), x, y)
  {
    var init, last := nodes[..|nodes| - 1], nodes[|nodes| - 1];
    var i, j :| 0 <= i < j < |nodes| && nodes[i] == x && nodes[j] == y;
    if j < |init| {
      assert init[i] == x && init[j] == y;
      WithInOrder(init, v, x, y);
      PrecedeLonger(WithVolumes(init, v), WithVolumes(nodes, v), x, y);
    } else {
      assert init[i] == x;
      WithListed(init, v);
      LastAfter(WithVolumes(init, v), x, last);
    }
  }

  lemma PrecedeLonger(a: seq<Node>, b: seq<Node>, x: Node, y: Node)
    requires a <= b && Precede(a, x, y)
    ensures Precede(b, x, y)
  {
    var i, j :| 0 <= i < j < |a| && a[i] == x && a[j] == y;
    assert b[i] == x && b[j] == y;
  }

  lemma LastAfter(a: seq<Node>, x: Node, last: Node)
    requires x in a
    ensures Precede(a + [last], x, last)
  {
    var i :| 0 <= i < |a| && a[i] == x;
    assert (a + [last])[i] == x && (a + [last])[|a|] == last;
  }

  lemma {:induction false} WithListed(nodes: seq<Node>, v: bool)
    ensures forall n :: n in WithVolumes(nodes, v) <==> n in nodes && n.volumes == v
    ensures DistinctIds(nodes) ==> DistinctIds(WithVolumes(nodes, v))
  {
    if nodes != [] {
      var init, last := nodes[..|nodes| - 1], nodes[|nodes| - 1];
      WithListed(init, v);
      assert nodes == init + [last];
    }
  }

  /** Of the nodes with volumes of one failure domain the first are matched. */
  lemma {:induction false} ScanInOrder(attached: seq<Node>, partners: map<string, Node>, surge: nat, x: Node, y: Node)
    requires DistinctIds(attached) && Precede(attached, x, y)
    ensures MatchedInOrder(Scanned(attached, partners, surge), x, y)
  {
    var init, last := attached[..|attached| - 1], attached[|attached| - 1];
    var i, j :| 0 <= i < j < |attached| && attached[i] == x && attached[j] == y;
    if j < |init| {
      assert init[i] == x && init[j] == y;
      ScanInOrder(init, partners, surge, x, y);
      ScanEarlier(attached, partners, surge, x, y);
    } else {
      assert init[i] == x;
      ScanLast(attached, partners, surge, x);
    }
  }

  ghost predicate MatchedInOrder(s: Scan, x: Node, y: Node) {
    && (y in s.matched && x.domain == y.domain ==> x in s.matched)
    && (y in s.unmatched ==> x in s.matched || Precede(s.unmatched, x, y))
  }

  lemma ScanEarlier(attached: seq<Node>, partners: map<string, Node>, surge: nat, x: Node, y: Node)
    requires attached != [] && DistinctIds(attached) && y in attached[..|attached| - 1]
    requires MatchedInOrder(Scanned(attached[..|attached| - 1], partners, surge), x, y)
    ensures MatchedInOrder(Scanned(attached, partners, surge), x, y)
  {
    var s := Scanned(attached[..|attached| - 1], partners, surge);
    assert y != attached[|attached| - 1];
    if y in s.unmatched && x !in s.matched {
      PrecedeLonger(s.unmatched, Scanned(attached, partners, surge).unmatched, x, y);
    }
  }

  lemma ScanLast(attached: seq<Node>, partners: map<string, Node>, surge: nat, x: Node)
    requires attached != [] && DistinctIds(attached) && x in attached[..|attached| - 1]
    ensures MatchedInOrder(Scanned(attached, partners, surge), x, attached[|attached| - 1])
  {
    var init, y := attached[..|attached| - 1], attached[|attached| - 1];
    var s := Scanned(init, partners, surge);
    ScanIn(init, partners, surge);
    ScanAll(init, partners, surge);
    ScanCounts(init, partners, surge, y.domain);
    assert y !in init;
    if x in s.unmatched {
      LastAfter(s.unmatched, x, y);
    }
  }

  /** Short of the surge, every node is matched or unmatched. */
  lemma {:induction false} ScanAll(attached: seq<Node>, partners: map<string, Node>, surge: nat)
    ensures var s := Scanned(attached, partners, surge);
      && (forall n :: n in s.unmatched ==> n in attached)
      && (|s.matched| < surge ==> forall n :: n in attached ==> n in s.matched || n in s.unmatched)
      && |s.matched| <= surge
  {
    if attached != [] {
      var init, last := attached[..|attached| - 1], attached[|attached| - 1];
      ScanAll(init, partners, surge);
      assert attached == init + [last];
    }
  }

  lemma {:induction false} ScanDistinct(attached: seq<Node>, partners: map<string, Node>, surge: nat)
    requires DistinctIds(attached)
    ensures var s := Scanned(attached, partners, surge);
      && DistinctIds(s.matched) && DistinctIds(s.unmatched)
      && forall n :: n in s.matched ==> n !in s.unmatched
  {
    if attached != [] {
      var init, last := attached[..|attached| - 1], attached[|attached| - 1];
      ScanDistinct(init, partners, surge);
      ScanIn(init, partners, surge);
      assert forall n :: n in init ==> n.id != last.id;
    }
  }

  /******* Counting *******/

  lemma {:induction false} ByProviderIs(nodes: seq<Node>)
    requires DistinctIds(nodes)
    ensures forall id :: id in ByProvider(nodes) ==> ByProvider(nodes)[id] in nodes && ByProvider(nodes)[id].id == id
    ensures forall n :: n in nodes ==> n.id in ByProvider(nodes) && ByProvider(nodes)[n.id] == n
  {
    if nodes != [] {
      var init, last := nodes[..|nodes| - 1], nodes[|nodes| - 1];
      ByProviderIs(init);
      assert nodes == init + [last];
    }
  }

  lemma {:induction false} NewListedIs(nodes: seq<Node>, g: int)
    ensures forall n :: n in NewNodes(nodes, g) <==> n in nodes && n.generation == g
    ensures DistinctIds(nodes) ==> DistinctIds(NewNodes(nodes, g))
  {
    if nodes != [] {
      var init, last := nodes[..|nodes| - 1], nodes[|nodes| - 1];
      NewListedIs(init, g);
      assert nodes == init + [last];
    }
  }

  lemma NewInDomain(pool: Snapshot, d: string)
    requires DistinctIds(pool.nodes)
    ensures InDomain(ByProvider(NewNodes(pool.nodes, pool.generation)), d) == NewIn(pool, d)
  {
    NewListedIs(pool.nodes, pool.generation);
    ByProviderIs(NewNodes(pool.nodes, pool.generation));
  }

  ghost function IdsIn(nodes: seq<Node>, d: string): set<string> {
    set n | n in nodes && n.domain == d :: n.id
  }

  lemma {:induction false} CountIds(nodes: seq<Node>, d: string)
    requires DistinctIds(nodes)
    ensures CountDomain(nodes, d) == |IdsIn(nodes, d)|
  {
    if nodes != [] {
      var init, last := nodes[..|nodes| - 1], nodes[|nodes| - 1];
      CountIds(init, d);
      assert nodes == init + [last];
      IdsSnoc(init, last, d);
    }
  }

  lemma IdsSnoc(init: seq<Node>, last: Node, d: string)
    requires DistinctIds(init + [last])
    ensures last.id !in IdSet(init) && last.id !in IdsIn(init, d)
    ensures IdSet(init + [last]) == IdSet(init) + {last.id}
    ensures IdsIn(init + [last], d) == IdsIn(init, d) + if last.domain == d then {last.id} else {}
  {
    var all := init + [last];
    assert forall i :: 0 <= i < |init| ==> all[i] == init[i] && all[|init|] == last;
  }

  ghost function IdSet(nodes: seq<Node>): set<string> {
    set n | n in nodes :: n.id
  }

  lemma {:induction false} IdSetSize(nodes: seq<Node>)
    requires DistinctIds(nodes)
    ensures |IdSet(nodes)| == |nodes|
  {
    if nodes != [] {
      var init, last := nodes[..|nodes| - 1], nodes[|nodes| - 1];
      IdSetSize(init);
      assert nodes == init + [last];
      IdsSnoc(init, last, last.domain);
    }
  }

  /******* The laws *******/

  /** The outdated nodes with volumes and those without, and the scan of the former. */
  ghost predicate Parts(pool: Snapshot, surge: nat, attached: seq<Node>, rest: seq<Node>, scan: Scan) {
    var oldNodes := OldNodes(pool.nodes, pool.generation);
    && attached == WithVolumes(oldNodes, true) && rest == WithVolumes(oldNodes, false)
    && scan == Scanned(attached, ByProvider(NewNodes(pool.nodes, pool.generation)), surge)
  }

  lemma PartsAre(pool: Snapshot, surge: nat, attached: seq<Node>, rest: seq<Node>, scan: Scan)
    requires DistinctIds(pool.nodes) && Parts(pool, surge, attached, rest, scan)
    ensures forall n :: n in attached <==> OutdatedWith(pool, n, true)
    ensures forall n :: n in rest <==> OutdatedWith(pool, n, false)
    ensures DistinctIds(attached) && DistinctIds(rest)
  {
    var oldNodes := OldNodes(pool.nodes, pool.generation);
    OldListed(pool.nodes, pool.generation);
    WithListed(oldNodes, true);
    WithListed(oldNodes, false);
  }

  /** What is known of the scan. */
  lemma ScanLaws(pool: Snapshot, surge: nat, attached: seq<Node>, rest: seq<Node>, scan: Scan)
    requires DistinctIds(pool.nodes) && Parts(pool, surge, attached, rest, scan)
    ensures forall n :: n in scan.matched || n in scan.unmatched ==> OutdatedWith(pool, n, true)
    ensures |scan.matched| < surge ==>
      forall n :: OutdatedWith(pool, n, true) ==> n in scan.matched || n in scan.unmatched
    ensures |scan.matched| <= surge && DistinctIds(scan.matched) && DistinctIds(scan.unmatched)
    ensures forall n :: n in scan.matched ==> n !in scan.unmatched
  {
    var partners := ByProvider(NewNodes(pool.nodes, pool.generation));
    PartsAre(pool, surge, attached, rest, scan);
    ScanIn(attached, partners, surge);
    ScanAll(attached, partners, surge);
    ScanDistinct(attached, partners, surge);
  }

  /** The choice by its parts. */
  lemma ChoiceParts(pool: Snapshot, surge: nat, attached: seq<Node>, rest: seq<Node>, scan: Scan)
    returns (more: seq<Node>)
    requires Parts(pool, surge, attached, rest, scan) && |scan.matched| <= surge
    ensures var c := Selection(pool, surge);
      && more <= rest && c.toCordon == scan.matched + more && c.unmatched <= scan.unmatched
      && (more != [] || c.unmatched != [] ==> |scan.matched| < surge)
      && (c.unmatched != [] ==> more == rest)
  {
    var c := Selection(pool, surge);
    if |scan.matched| == surge {
      more := [];
      assert scan.matched + [] == scan.matched;
    } else {
      more := Take(rest, surge - |scan.matched|);
      TakeFacts(rest, surge - |scan.matched|);
      TakeFacts(scan.unmatched, surge - |c.toCordon|);
    }
  }

  lemma SameId(nodes: seq<Node>, m: Node, n: Node)
    requires DistinctIds(nodes) && m in nodes && n in nodes && m.id == n.id
    ensures m == n
  {
  }

  /** The choice with its parts. */
  ghost predicate Composed(pool: Snapshot, surge: nat, attached: seq<Node>, rest: seq<Node>, scan: Scan,
                           c: Choice, more: seq<Node>) {
    && DistinctIds(pool.nodes) && Parts(pool, surge, attached, rest, scan)
    && more <= rest && c.toCordon == scan.matched + more && c.unmatched <= scan.unmatched
    && (more != [] || c.unmatched != [] ==> |scan.matched| < surge)
    && (c.unmatched != [] ==> more == rest)
  }

  lemma ComposedFromOutdated(pool: Snapshot, surge: nat, attached: seq<Node>, rest: seq<Node>, scan: Scan,
                             c: Choice, more: seq<Node>)
    requires Composed(pool, surge, attached, rest, scan, c, more)
    ensures FromOutdated(pool, c)
    ensures forall n :: n in c.toCordon ==> if n.volumes then n in scan.matched else n in more
  {
    PartsAre(pool, surge, attached, rest, scan);
    ScanLaws(pool, surge, attached, rest, scan);
    assert forall n :: n in more ==> n in rest;
    assert forall n :: n in c.unmatched ==> n in scan.unmatched;
    forall m, n | m in scan.matched && n in more ensures m.id != n.id {
      if m.id == n.id {
        SameId(pool.nodes, m, n);
      }
    }
  }

  lemma CordonedCount(pool: Snapshot, surge: nat, attached: seq<Node>, rest: seq<Node>, scan: Scan,
                      c: Choice, more: seq<Node>, d: string)
    requires Composed(pool, surge, attached, rest, scan, c, more)
    ensures |CordonedIn(c, d)| <= |NewIn(pool, d)|
    ensures (exists u :: u in scan.unmatched && u.domain == d) ==> UsedUp(pool, c, d)
  {
    ComposedFromOutdated(pool, surge, attached, rest, scan, c, more);
    ScanLaws(pool, surge, attached, rest, scan);
    assert CordonedIn(c, d) == IdsIn(scan.matched, d);
    CountIds(scan.matched, d);
    NewInDomain(pool, d);
    ScanCounts(attached, ByProvider(NewNodes(pool.nodes, pool.generation)), surge, d);
  }

  lemma ComposedInTurn(pool: Snapshot, surge: nat, attached: seq<Node>, rest: seq<Node>, scan: Scan,
                       c: Choice, more: seq<Node>)
    requires Composed(pool, surge, attached, rest, scan, c, more)
    ensures InTurn(pool, c)
  {
    PartsAre(pool, surge, attached, rest, scan);
    ScanLaws(pool, surge, attached, rest, scan);
    ComposedFromOutdated(pool, surge, attached, rest, scan, c, more);
    forall n | n in scan.unmatched ensures UsedUp(pool, c, n.domain) {
      CordonedCount(pool, surge, attached, rest, scan, c, more, n.domain);
    }
    assert forall n :: n in c.unmatched ==> n in scan.unmatched;
    assert forall n :: n in more ==> n in rest && n in c.toCordon;
    assert forall n :: n in scan.matched ==> n in c.toCordon;
    MatchedFirst(scan.matched, more, c.toCordon);
  }

  lemma MatchedFirst(a: seq<Node>, b: seq<Node>, all: seq<Node>)
    requires all == a + b && (forall n :: n in a ==> n.volumes) && (forall n :: n in b ==> !n.volumes)
    ensures forall i, j :: 0 <= i < j < |all| && all[j].volumes ==> all[i].volumes
  {
    assert forall k :: 0 <= k < |a| ==> all[k] in a;
    assert forall k :: |a| <= k < |all| ==> all[k] in b;
  }

  lemma ComposedInOrder(pool: Snapshot, surge: nat, attached: seq<Node>, rest: seq<Node>, scan: Scan,
                        c: Choice, more: seq<Node>)
    requires Composed(pool, surge, attached, rest, scan, c, more)
    ensures InOrder(pool, c)
  {
    forall x, y | Precede(pool.nodes, x, y) && Alike(pool, x, y)
      ensures y in c.toCordon && (!y.volumes || x.domain == y.domain) ==> x in c.toCordon
      ensures y in c.unmatched ==> x in c.toCordon || x in c.unmatched
    {
      PairInOrder(pool, surge, attached, rest, scan, c, more, x, y);
    }
  }

  lemma PairInOrder(pool: Snapshot, surge: nat, attached: seq<Node>, rest: seq<Node>, scan: Scan,
                    c: Choice, more: seq<Node>, x: Node, y: Node)
    requires Composed(pool, surge, attached, rest, scan, c, more)
    requires Precede(pool.nodes, x, y) && Alike(pool, x, y)
    ensures y in c.toCordon && (!y.volumes || x.domain == y.domain) ==> x in c.toCordon
    ensures y in c.unmatched ==> x in c.toCordon || x in c.unmatched
  {
    var oldNodes := OldNodes(pool.nodes, pool.generation);
    OldInOrder(pool.nodes, pool.generation, x, y);
    WithInOrder(oldNodes, x.volumes, x, y);
    PartsAre(pool, surge, attached, rest, scan);
    ScanLaws(pool, surge, attached, rest, scan);
    ComposedFromOutdated(pool, surge, attached, rest, scan, c, more);
    if x.volumes {
      ScanInOrder(attached, ByProvider(NewNodes(pool.nodes, pool.generation)), surge, x, y);
      if y in c.unmatched && x !in scan.matched {
        assert y in scan.unmatched;
        PrefixKeeps(scan.unmatched, c.unmatched, x, y);
      }
    } else if y in c.toCordon {
      PrefixKeeps(rest, more, x, y);
    }
  }

  lemma PrefixKeeps(all: seq<Node>, part: seq<Node>, x: Node, y: Node)
    requires DistinctIds(all) && part <= all && Precede(all, x, y) && y in part
    ensures x in part
  {
    var i, j :| 0 <= i < j < |all| && all[i] == x && all[j] == y;
    var k :| 0 <= k < |part| && part[k] == y;
    assert all[k] == y && k == j;
    assert part[i] == x;
  }

  /** What `ComputeNodesList` chooses, in terms of the pool alone. */
  lemma SelectionWellChosen(pool: Snapshot, surge: nat)
    requires DistinctIds(pool.nodes)
    ensures WellChosen(pool, surge, Selection(pool, surge))
  {
    var oldNodes, c := OldNodes(pool.nodes, pool.generation), Selection(pool, surge);
    var attached, rest := WithVolumes(oldNodes, true), WithVolumes(oldNodes, false);
    var scan := Scanned(attached, ByProvider(NewNodes(pool.nodes, pool.generation)), surge);
    ScanLaws(pool, surge, attached, rest, scan);
    var more := ChoiceParts(pool, surge, attached, rest, scan);
    ComposedFromOutdated(pool, surge, attached, rest, scan, c, more);
    ComposedInTurn(pool, surge, attached, rest, scan, c, more);
    ComposedInOrder(pool, surge, attached, rest, scan, c, more);
    forall d ensures |CordonedIn(c, d)| <= |NewIn(pool, d)| {
      CordonedCount(pool, surge, attached, rest, scan, c, more, d);
    }
    SelectionCount(pool, surge);
  }

  lemma SelectionCount(pool: Snapshot, surge: nat)
    requires DistinctIds(pool.nodes)
    ensures var c := Selection(pool, surge); |c.toCordon| + |c.unmatched| == Min(surge, |OutdatedIds(pool)|)
  {
    var oldNodes := OldNodes(pool.nodes, pool.generation);
    SelectionSize(pool, surge);
    OldListed(pool.nodes, pool.generation);
    IdSetSize(oldNodes);
    assert IdSet(oldNodes) == OutdatedIds(pool);
  }
}
