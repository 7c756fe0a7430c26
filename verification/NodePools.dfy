/** Node pools as the update strategies see them, the steps that change them,
    and what every sequence of such steps keeps.

    A pool is an auto scaling group together with its Kubernetes nodes. Every
    change to it is recorded as a `Step`, so a statement about every step of a
    trace is a statement about every state that a run goes through, also in the
    middle of a termination and across restarts of the update. */
module NodePools {

  datatype Node = Node(id: string, generation: int, domain: string, cordoned: bool, volumes: bool, ready: bool)

  /** `gone` holds the provider IDs of instances that no longer exist; the cloud
      does not use them again. */
  datatype Pool = Pool(generation: int, desired: nat, nodes: map<string, Node>, gone: set<string>)

  function Min(a: int, b: int): int { if a < b then a else b }

  function Max(a: int, b: int): int { if a < b then b else a }

  function Old(p: Pool): set<string> {
    set id | id in p.nodes && p.nodes[id].generation != p.generation
  }

  function New(p: Pool): set<string> {
    set id | id in p.nodes && p.nodes[id].generation == p.generation
  }

  function Cordoned(p: Pool): set<string> {
    set id | id in p.nodes && p.nodes[id].cordoned
  }

  function Ready(p: Pool): set<string> {
    set id | id in p.nodes && p.nodes[id].ready
  }

  /** The nodes that can take new pods. */
  function Serving(p: Pool): set<string> {
    set id | id in p.nodes && p.nodes[id].ready && !p.nodes[id].cordoned
  }

  predicate VolumeFree(p: Pool) {
    forall id :: id in Old(p) ==> !p.nodes[id].volumes
  }

  /** Nodes are filed under their own provider ID, and the scaling group never
      runs more instances than desired. */
  predicate WellFormed(p: Pool) {
    && (forall id :: id in p.nodes ==> p.nodes[id].id == id && id !in p.gone)
    && |p.nodes| <= p.desired
  }

  /** What `WaitForDesiredNodes` waits for. */
  predicate Settled(p: Pool) {
    |Ready(p)| == p.desired
  }

  /** Only outdated nodes are cordoned, and at most `surge` of them. */
  predicate CordonBound(p: Pool, surge: nat) {
    && Cordoned(p) <= Old(p)
    && |Cordoned(p)| <= Min(|Old(p)|, surge)
  }

  /** The capacity that is not on loan to the update. */
  function Ledger(p: Pool, surge: nat): int {
    p.desired - Min(|Old(p)|, surge)
  }

  /******* Steps *******/

  /** A pool as the strategy reads it at one point in time. */
  datatype Snapshot = Snapshot(generation: int, desired: nat, nodes: seq<Node>)

  predicate DistinctIds(nodes: seq<Node>) {
    forall i, j :: 0 <= i < j < |nodes| ==> nodes[i].id != nodes[j].id
  }

  /** The snapshot lists every node of the pool, once, in some order. */
  predicate Lists(s: Snapshot, p: Pool) {
    && s.generation == p.generation
    && s.desired == p.desired
    && |s.nodes| == |p.nodes|
    && DistinctIds(s.nodes)
    && (forall n :: n in s.nodes ==> n.id in p.nodes && p.nodes[n.id] == n)
  }

  /** `Choose` is the moment at which the nodes to replace next are computed. */
  datatype Event =
    | CloudActs
    | Choose(snapshot: Snapshot)
    | Scale(replicas: nat)
    | Cordon(id: string)
    | Drained(id: string)
    | Terminate(id: string, decrement: bool)

  datatype Step = Step(before: Pool, event: Event, after: Pool)

  /** What the cloud does on its own: it starts nodes of the current generation
      up to the desired size, nodes become ready, volumes come and go. Only spot
      pools lose nodes. */
  predicate CloudStep(p: Pool, q: Pool, spot: bool) {
    && WellFormed(q)
    && q.generation == p.generation
    && q.desired == p.desired
    && (spot || p.nodes.Keys <= q.nodes.Keys)
    && p.gone + (p.nodes.Keys - q.nodes.Keys) <= q.gone
    && (forall id :: id in p.nodes && id in q.nodes ==> SameNode(p.nodes[id], q.nodes[id]))
    && (forall id :: id in q.nodes && id !in p.nodes ==>
         q.nodes[id].generation == p.generation && !q.nodes[id].cordoned)
  }

  predicate SameNode(m: Node, n: Node) {
    m.generation == n.generation && m.domain == n.domain && m.cordoned == n.cordoned && (m.ready ==> n.ready)
  }

  function WithCordon(p: Pool, id: string): Pool
    requires id in p.nodes
  {
    p.(nodes := p.nodes[id := p.nodes[id].(cordoned := true)])
  }

  function Without(p: Pool, id: string, decrement: bool): Pool
    requires id in p.nodes && WellFormed(p)
  {
    p.(nodes := p.nodes - {id}, gone := p.gone + {id}, desired := if decrement then p.desired - 1 else p.desired)
  }

  /** A step that only does what its event says. A scaling request over several
      groups may get stuck half way. */
  predicate Effect(st: Step, spot: bool) {
    && WellFormed(st.before)
    && WellFormed(st.after)
    && match st.event
       case CloudActs => CloudStep(st.before, st.after, spot)
       case Choose(s) => Lists(s, st.before) && st.after == st.before
       case Scale(r) =>
         && Min(st.before.desired, r) <= st.after.desired <= Max(st.before.desired, r)
         && st.after == st.before.(desired := st.after.desired)
       case Cordon(id) => id in st.before.nodes && st.after == WithCordon(st.before, id)
       case Drained(id) => st.after == st.before
       case Terminate(id, dec) => id in st.before.nodes && st.after == Without(st.before, id, dec)
  }

  /** A step that touches outdated nodes only, and takes away cordoned ones only. */
  predicate Safe(st: Step) {
    match st.event
    case Cordon(id) => id in Old(st.before)
    case Drained(id) => id in Old(st.before) && id in Cordoned(st.before)
    case Terminate(id, _) => id in Old(st.before) && id in Cordoned(st.before)
    case _ => true
  }

  /** A step that scales out only, and that gives the capacity of a terminated
      node back exactly when at most `surge` outdated nodes are left. */
  predicate Metered(st: Step, surge: nat) {
    match st.event
    case Scale(r) => st.before.desired <= st.after.desired
    case Terminate(_, dec) => dec <==> |Old(st.before)| <= surge
    case _ => true
  }

  /** A step that cordons in settled states only, and within the surge. */
  predicate Restrained(st: Step, surge: nat) {
    st.event.Cordon? ==> Settled(st.before) && CordonBound(st.after, surge)
  }

  function Raise(st: Step): int {
    if st.event.Scale? then st.after.desired - st.before.desired else 0
  }

  /******* Traces *******/

  /** Every step from k on has the property p. The trigger keeps the solver from
      looking into steps that a proof does not ask about; see `At`. */
  ghost predicate EachFrom(t: seq<Step>, k: nat, p: Step -> bool) {
    forall i {:trigger p(t[i])} :: k <= i < |t| ==> p(t[i])
  }

  lemma At(t: seq<Step>, k: nat, p: Step -> bool, i: nat)
    requires EachFrom(t, k, p) && k <= i < |t|
    ensures p(t[i])
  {
  }

  ghost function IsEffect(spot: bool): Step -> bool { st => Effect(st, spot) }
  ghost function IsSafe(): Step -> bool { st => Safe(st) }
  ghost function IsMetered(surge: nat): Step -> bool { st => Metered(st, surge) }
  ghost function IsRestrained(surge: nat): Step -> bool { st => Restrained(st, surge) }
  ghost function IsVolumeFree(): Step -> bool { (st: Step) => VolumeFree(st.after) }

  /** A run: every step starts where the one before it ended. */
  ghost predicate Chain(t: seq<Step>, spot: bool) {
    EachFrom(t, 0, IsEffect(spot)) && Linked(t)
  }

  ghost predicate Linked(t: seq<Step>) {
    forall i, j :: 0 <= i && j == i + 1 && j < |t| ==> t[i].after == t[j].before
  }

  /** From step k on, only outdated nodes are touched and only cordoned ones leave. */
  ghost predicate SafeFrom(t: seq<Step>, k: nat) {
    EachFrom(t, k, IsSafe())
  }

  /** From step k on, no node is terminated that was not drained before, while cordoned. */
  ghost predicate DrainsFirst(t: seq<Step>, k: nat) {
    forall i {:trigger DrainedBefore(t, i, t[i].event.id)} ::
      k <= i < |t| && t[i].event.Terminate? ==> DrainedBefore(t, i, t[i].event.id)
  }

  ghost predicate DrainedBefore(t: seq<Step>, i: nat, id: string)
    requires i <= |t|
  {
    exists j :: 0 <= j < i && t[j].event == Drained(id) && id in Cordoned(t[j].before)
  }

  ghost predicate MeteredFrom(t: seq<Step>, k: nat, surge: nat) {
    EachFrom(t, k, IsMetered(surge))
  }

  ghost predicate RestrainedFrom(t: seq<Step>, k: nat, surge: nat) {
    EachFrom(t, k, IsRestrained(surge))
  }

  ghost predicate VolumeFreeFrom(t: seq<Step>, k: nat) {
    EachFrom(t, k, IsVolumeFree())
  }

  /** How much the scaling requests from step k on added to the desired size. */
  ghost function RaisedFrom(t: seq<Step>, k: nat): int {
    if |t| <= k then 0 else RaisedFrom(t[..|t| - 1], k) + Raise(t[|t| - 1])
  }

  /******* What one step keeps *******/

  lemma SettledPools(p: Pool)
    requires WellFormed(p) && Settled(p)
    ensures Ready(p) == p.nodes.Keys && |p.nodes| == p.desired
    ensures |Serving(p)| == p.desired - |Cordoned(p)|
  {
    SubsetSize(Ready(p), p.nodes.Keys);
    assert Serving(p) == p.nodes.Keys - Cordoned(p);
    assert |Serving(p)| == |p.nodes.Keys| - |Cordoned(p)|;
  }

  lemma SubsetSize<T>(a: set<T>, b: set<T>)
    requires a <= b
    ensures |a| <= |b|
    ensures |a| == |b| ==> a == b
  {
    assert b == a + (b - a);
  }

  lemma SplitSizes(p: Pool)
    ensures |Old(p)| + |New(p)| == |p.nodes|
  {
    assert Old(p) + New(p) == p.nodes.Keys;
    assert Old(p) !! New(p);
  }

  /** Which nodes are outdated changes through terminations alone. */
  lemma OldAfter(st: Step)
    requires Effect(st, false)
    ensures Old(st.after) == if st.event.Terminate? then Old(st.before) - {st.event.id} else Old(st.before)
  {
  }

  /** A termination leaves the ledger alone whether or not it decrements. */
  lemma LedgerStep(st: Step, surge: nat)
    requires Effect(st, false) && Safe(st) && Metered(st, surge)
    ensures Ledger(st.after, surge) == Ledger(st.before, surge) + Raise(st)
  {
    OldAfter(st);
  }

  lemma CordonBoundStep(st: Step, surge: nat)
    requires Effect(st, false) && Safe(st) && Restrained(st, surge) && CordonBound(st.before, surge)
    ensures CordonBound(st.after, surge)
  {
    OldAfter(st);
    match st.event
    case CloudActs => assert Cordoned(st.after) == Cordoned(st.before);
    case Choose(_) =>
    case Scale(_) => assert Cordoned(st.after) == Cordoned(st.before);
    case Cordon(_) =>
    case Drained(_) =>
    case Terminate(id, _) => assert Cordoned(st.after) == Cordoned(st.before) - {id};
  }

  lemma ServingStep(st: Step, surge: nat, floor: int)
    requires Effect(st, false) && Safe(st) && Metered(st, surge) && Restrained(st, surge)
    requires floor <= |Serving(st.before)| && floor <= Ledger(st.before, surge)
    ensures floor <= |Serving(st.after)| && floor <= Ledger(st.after, surge)
  {
    LedgerStep(st, surge);
    match st.event
    case Cordon(id) =>
      assert Ready(st.after) == Ready(st.before);
      SettledPools(st.after);
      OldAfter(st);
    case Terminate(id, _) =>
      assert Serving(st.after) == Serving(st.before);
    case _ =>
      assert Serving(st.before) <= Serving(st.after);
      SubsetSize(Serving(st.before), Serving(st.after));
  }

  /******* What every run keeps *******/

  lemma StepAt(t: seq<Step>, k: nat, i: nat, surge: nat)
    requires k <= i < |t| && Chain(t, false) && SafeFrom(t, k) && MeteredFrom(t, k, surge)
    ensures Effect(t[i], false) && Safe(t[i]) && Metered(t[i], surge)
  {
    At(t, 0, IsEffect(false), i);
    At(t, k, IsSafe(), i);
    At(t, k, IsMetered(surge), i);
  }

  lemma Prefix(t: seq<Step>, m: nat, k: nat, p: Step -> bool)
    requires m <= |t| && EachFrom(t, k, p)
    ensures EachFrom(t[..m], k, p)
  {
    forall i | k <= i < m ensures p(t[..m][i]) {
      At(t, k, p, i);
    }
  }

  /** Capacity is conserved: over any run the ledger moves by the scaling
      requests and by nothing else. */
  lemma {:induction false} LedgerConserved(t: seq<Step>, k: nat, surge: nat)
    requires k < |t| && Chain(t, false) && SafeFrom(t, k) && MeteredFrom(t, k, surge)
    ensures Ledger(t[|t| - 1].after, surge) == Ledger(t[k].before, surge) + RaisedFrom(t, k)
  {
    var last := |t| - 1;
    StepAt(t, k, last, surge);
    LedgerStep(t[last], surge);
    if last > k {
      Prefix(t, last, 0, IsEffect(false));
      Prefix(t, last, k, IsSafe());
      Prefix(t, last, k, IsMetered(surge));
      LedgerConserved(t[..last], k, surge);
      assert t[last - 1].after == t[last].before;
    } else {
      assert RaisedFrom(t[..last], k) == 0;
    }
  }

  /** The trace was `mark` steps long when the pool was m. */
  ghost predicate Marked(t: seq<Step>, mark: nat, m: Pool) {
    0 < mark <= |t| && t[mark - 1].after == m
  }

  lemma {:induction false} LedgerSince(t: seq<Step>, mark: nat, m: Pool, q: Pool, surge: nat)
    requires Marked(t, mark, m) && Marked(t, |t|, q)
    requires Chain(t, false) && SafeFrom(t, mark) && MeteredFrom(t, mark, surge)
    ensures Ledger(q, surge) == Ledger(m, surge) + RaisedFrom(t, mark)
  {
    if mark < |t| {
      assert t[mark - 1].after == t[mark].before;
      LedgerConserved(t, mark, surge);
    }
  }

  /** Availability: once the serving nodes and the ledger are at a floor they stay
      at or above it in every later state, however the run goes on. */
  lemma {:induction false} Available(t: seq<Step>, k: nat, surge: nat, floor: int, i: nat)
    requires k <= i < |t| && Chain(t, false) && SafeFrom(t, k) && MeteredFrom(t, k, surge)
    requires RestrainedFrom(t, k, surge)
    requires floor <= |Serving(t[k].before)| && floor <= Ledger(t[k].before, surge)
    ensures floor <= |Serving(t[i].after)| && floor <= Ledger(t[i].after, surge)
  {
    if i > k {
      Available(t, k, surge, floor, i - 1);
      assert t[i - 1].after == t[i].before;
    }
    StepAt(t, k, i, surge);
    At(t, k, IsRestrained(surge), i);
    ServingStep(t[i], surge, floor);
  }

  /** Run safety: nothing but the loss of a spot instance ever takes a node of the
      current generation away or cordons it. */
  lemma CurrentNodesUntouched(st: Step, spot: bool, id: string)
    requires Effect(st, spot) && Safe(st) && id in New(st.before)
    requires spot ==> !st.event.CloudActs?
    ensures id in New(st.after)
    ensures id in Serving(st.before) ==> id in Serving(st.after)
  {
  }

  /** So outside spot pools a node of the current generation outlives every run. */
  lemma {:induction false} CurrentNodesStay(t: seq<Step>, k: nat, i: nat, id: string)
    requires k <= i < |t| && Chain(t, false) && SafeFrom(t, k) && id in New(t[k].before)
    ensures id in New(t[i].after)
    ensures id in Serving(t[k].before) ==> id in Serving(t[i].after)
  {
    if i > k {
      CurrentNodesStay(t, k, i - 1, id);
      assert t[i - 1].after == t[i].before;
    }
    At(t, 0, IsEffect(false), i);
    At(t, k, IsSafe(), i);
    CurrentNodesUntouched(t[i], false, id);
  }

  /******* Joining traces *******/

  lemma ChainSnoc(t: seq<Step>, st: Step, spot: bool)
    requires Chain(t, spot) && Effect(st, spot)
    requires t != [] ==> t[|t| - 1].after == st.before
    ensures Chain(t + [st], spot)
  {
    EachSnoc(t, 0, st, IsEffect(spot));
  }

  lemma EachSnoc(t: seq<Step>, k: nat, st: Step, p: Step -> bool)
    requires EachFrom(t, k, p) && p(st)
    ensures EachFrom(t + [st], k, p)
  {
    var u := t + [st];
    forall i | k <= i < |u| ensures p(u[i]) {
      if i < |t| {
        At(t, k, p, i);
      }
    }
  }

  lemma EachJoin(t: seq<Step>, u: seq<Step>, k: nat, p: Step -> bool)
    requires t <= u && EachFrom(t, k, p) && EachFrom(u, |t|, p)
    ensures EachFrom(u, k, p)
  {
    forall i | k <= i < |u| ensures p(u[i]) {
      if i < |t| {
        At(t, k, p, i);
      } else {
        At(u, |t|, p, i);
      }
    }
  }

  lemma EachImplies(t: seq<Step>, k: nat, p: Step -> bool, q: Step -> bool)
    requires EachFrom(t, k, p) && forall st :: p(st) ==> q(st)
    ensures EachFrom(t, k, q)
  {
    forall i | k <= i < |t| ensures q(t[i]) {
      At(t, k, p, i);
    }
  }

  lemma DrainsFirstJoin(t: seq<Step>, u: seq<Step>, k: nat)
    requires t <= u && DrainsFirst(t, k) && DrainsFirst(u, |t|)
    ensures DrainsFirst(u, k)
  {
    forall i | k <= i < |t| && u[i].event.Terminate? ensures DrainedBefore(u, i, u[i].event.id) {
      assert DrainedBefore(t, i, t[i].event.id);
      var j :| 0 <= j < i && t[j].event == Drained(t[i].event.id) && t[i].event.id in Cordoned(t[j].before);
      assert u[j] == t[j];
    }
  }

  /** Cordons stay within the surge over any run. */
  lemma {:induction false} CordonBoundKept(t: seq<Step>, k: nat, surge: nat)
    requires k < |t| && Chain(t, false) && SafeFrom(t, k) && RestrainedFrom(t, k, surge)
    requires CordonBound(t[k].before, surge)
    ensures CordonBound(t[|t| - 1].after, surge)
  {
    var last := |t| - 1;
    if last > k {
      Prefix(t, last, 0, IsEffect(false));
      Prefix(t, last, k, IsSafe());
      Prefix(t, last, k, IsRestrained(surge));
      CordonBoundKept(t[..last], k, surge);
      assert t[last - 1].after == t[last].before;
    }
    At(t, 0, IsEffect(false), last);
    At(t, k, IsSafe(), last);
    At(t, k, IsRestrained(surge), last);
    CordonBoundStep(t[last], surge);
  }

  lemma {:induction false} RaisedJoin(t: seq<Step>, k: nat, m: nat)
    requires k <= m <= |t|
    ensures RaisedFrom(t, k) == RaisedFrom(t[..m], k) + RaisedFrom(t, m)
  {
    if |t| == m {
      assert t[..m] == t;
    } else {
      var init := t[..|t| - 1];
      RaisedJoin(init, k, m);
      assert init[..m] == t[..m];
    }
  }
}
