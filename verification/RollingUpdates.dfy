/** The rolling update of one node pool, and the scaling it relies on.

    `Update` is checked against the cloud of module `Clouds`: whatever the cloud
    does in between, and wherever a call fails or the context is cancelled. */
module RollingUpdates {
  import opened NodePools
  import opened NodeSelection
  import opened Clouds

  ghost function IsNoScale(): Step -> bool { (st: Step) => !st.event.Scale? }
  ghost function IsNoCordon(): Step -> bool { (st: Step) => !st.event.Cordon? && !st.event.Choose? }
  ghost function IsNoChoice(): Step -> bool { (st: Step) => !st.event.Choose? }
  ghost function IsCordonOf(ids: set<string>): Step -> bool { (st: Step) => st.event.Cordon? ==> st.event.id in ids }
  ghost function IsCordonOrQuiet(): Step -> bool { (st: Step) => st.event.CloudActs? || st.event.Cordon? }
  ghost function IsScaleOrQuiet(): Step -> bool { (st: Step) => st.event.CloudActs? || st.event.Scale? }
  ghost function IsScaleOut(): Step -> bool {
    (st: Step) => st.event.CloudActs? || (st.event.Scale? && st.before.desired <= st.after.desired)
  }

  /******* Pools that only grow *******/

  /** q is what p can become when nothing but scaling out happens. */
  ghost predicate Grown(p: Pool, q: Pool, spot: bool) {
    p.desired <= q.desired && CloudStep(p.(desired := q.desired), q, spot)
  }

  lemma GrownTransitive(p: Pool, q: Pool, r: Pool, spot: bool)
    requires WellFormed(p) && Grown(p, q, spot) && Grown(q, r, spot)
    ensures Grown(p, r, spot)
  {
    CloudTransitive(p.(desired := r.desired), q.(desired := r.desired), r, spot);
  }

  lemma GrownKeeps(p: Pool, q: Pool)
    requires WellFormed(p) && Grown(p, q, false)
    ensures Old(q) == Old(p) && Cordoned(q) == Cordoned(p)
  {
    CloudKeeps(p.(desired := q.desired), q);
    assert Old(p.(desired := q.desired)) == Old(p);
    assert Cordoned(p.(desired := q.desired)) == Cordoned(p);
  }

  lemma GrownEvolves(p: Pool, q: Pool, spot: bool)
    requires WellFormed(p) && Grown(p, q, spot)
    ensures Evolves(p, q)
  {
  }

  /** From step k on, nodes are only ever added. */
  ghost predicate ScalesOut(t: seq<Step>, k: nat) {
    EachFrom(t, k, IsScaleOut())
  }

  lemma QuietScalesOut(t: seq<Step>, k: nat)
    requires Quiet(t, k)
    ensures ScalesOut(t, k) && EachFrom(t, k, IsScaleOrQuiet())
  {
    EachImplies(t, k, IsQuiet(), IsScaleOut());
    EachImplies(t, k, IsQuiet(), IsScaleOrQuiet());
  }

  lemma ScalesOutJoin(t: seq<Step>, u: seq<Step>, k: nat)
    requires t <= u && ScalesOut(t, k) && ScalesOut(u, |t|)
    ensures ScalesOut(u, k)
  {
    EachJoin(t, u, k, IsScaleOut());
  }

  /******* Scaling *******/

  /** `ScalePool`: only a pool that is scaled to zero loses nodes. */
  method ScalePool(c: Cloud, replicas: nat, deadline: nat) returns (ok: bool)
    requires c.Valid()
    modifies c
    ensures c.Valid() && old(c.trace) <= c.trace
    ensures replicas > 0 && !c.spot ==> ScalesOut(c.trace, |old(c.trace)|) && Grown(old(c.pool), c.pool, false)
    ensures replicas > 0 && !c.spot ==> c.pool.desired <= Max(old(c.pool).desired, replicas)
    ensures replicas > 0 && ok && !c.spot ==> c.pool.desired == replicas
    ensures replicas > 0 ==> EachFrom(c.trace, |old(c.trace)|, IsScaleOrQuiet())
    ensures replicas == 0 ==> DrainsFirst(c.trace, |old(c.trace)|)
    ensures replicas == 0 && ok ==> c.pool.nodes == map[] && (!c.spot ==> c.pool.desired == 0)
    ensures c.reliable && !c.spot && replicas > 0 && !ok ==>
      TimedOut(c.trace, |old(c.trace)|) || old(c.pool).desired > replicas
    ensures c.reliable && !c.spot && replicas == 0 && !ok && deadline > old(c.pool).desired ==>
      TimedOut(c.trace, |old(c.trace)|)
  {
    if replicas == 0 {
      ok := DrainPool(c, deadline);
      return;
    }
    var r := c.WaitForDesiredNodes();
    QuietScalesOut(c.trace, |old(c.trace)|);
    if r.Err? || |r.value.nodes| > replicas {
      return false;
    }
    if !c.spot {
      SettledAfter(old(c.pool), c.pool, r);
    }
    if |r.value.nodes| < replicas {
      ok := BackendScale(c, replicas, old(c.pool), |old(c.trace)|);
    } else {
      ok := true;
    }
  }

  lemma SettledAfter(p: Pool, q: Pool, r: Result<Snapshot>)
    requires WellFormed(p) && CloudStep(p, q, false) && r.Ok? && Lists(r.value, q) && Settled(q)
    ensures Grown(p, q, false) && |r.value.nodes| == q.desired
  {
    SettledPools(q);
  }

  /** Sets the desired size; a failed request may have got part of the way. */
  method BackendScale(c: Cloud, replicas: nat, ghost start: Pool, ghost k: nat) returns (ok: bool)
    requires c.Valid() && |c.pool.nodes| <= replicas
    requires WellFormed(start) && k <= |c.trace| && Quiet(c.trace, k)
    requires !c.spot ==> Grown(start, c.pool, false) && c.pool.desired <= replicas
    modifies c
    ensures c.Valid() && old(c.trace) <= c.trace
    ensures !c.spot ==> ScalesOut(c.trace, k) && Grown(start, c.pool, false) && c.pool.desired <= replicas
    ensures ok ==> c.pool.desired == replicas
    ensures EachFrom(c.trace, k, IsScaleOrQuiet())
    ensures c.reliable ==> ok
  {
    var reached: nat := *;
    var failed := c.Fault();
    ok := !failed;
    if ok || !(Min(c.pool.desired, replicas) <= reached <= Max(c.pool.desired, replicas)) || reached < |c.pool.nodes| {
      reached := replicas;
    }
    QuietScalesOut(c.trace, k);
    c.Advance(Scale(replicas), c.pool.(desired := reached));
    EachSnoc(old(c.trace), k, Step(old(c.pool), Scale(replicas), c.pool), IsScaleOrQuiet());
    if !c.spot {
      GrownTransitive(start, old(c.pool), c.pool, false);
      EachSnoc(old(c.trace), k, Step(old(c.pool), Scale(replicas), c.pool), IsScaleOut());
    }
  }

  /** Scaling to zero: one node after the other is cordoned, drained and
      terminated, cordoned nodes first, until the context is cancelled. */
  method DrainPool(c: Cloud, deadline: nat) returns (ok: bool)
    requires c.Valid()
    modifies c
    ensures c.Valid() && old(c.trace) <= c.trace && DrainsFirst(c.trace, |old(c.trace)|)
    ensures ok ==> c.pool.nodes == map[] && (!c.spot ==> c.pool.desired == 0)
    ensures c.reliable && !c.spot && !ok && deadline > old(c.pool).desired ==> TimedOut(c.trace, |old(c.trace)|)
  {
    for round := 0 to deadline
      invariant c.Valid() && old(c.trace) <= c.trace && DrainsFirst(c.trace, |old(c.trace)|)
      invariant c.reliable && !c.spot ==> c.pool.desired == old(c.pool).desired - round
    {
      ghost var before, t := c.pool, c.trace;
      var r := c.WaitForDesiredNodes();
      QuietDrains(c.trace, |t|);
      DrainsFirstJoin(t, c.trace, |old(c.trace)|);
      var failed := c.Fault();
      if r.Err? || failed {
        return false;
      }
      if |r.value.nodes| == 0 {
        if !c.spot {
          SettledAfter(before, c.pool, r);
        }
        return true;
      }
      if !c.spot {
        SettledAfter(before, c.pool, r);
      }
      var node := FirstCordoned(r.value.nodes);
      ok := RemoveNode(c, node, |old(c.trace)|);
      if !ok {
        return;
      }
    }
    return false;
  }

  lemma QuietDrains(t: seq<Step>, k: nat)
    requires Quiet(t, k)
    ensures DrainsFirst(t, k)
  {
    forall i | k <= i < |t| ensures t[i].event.CloudActs? {
      At(t, k, IsQuiet(), i);
    }
  }

  method FirstCordoned(nodes: seq<Node>) returns (node: Node)
    requires nodes != []
    ensures node in nodes
    ensures node.cordoned || forall n :: n in nodes ==> !n.cordoned
  {
    node := nodes[0];
    for i := 0 to |nodes|
      invariant node == nodes[0]
      invariant forall j :: 0 <= j < i ==> !nodes[j].cordoned
    {
      if nodes[i].cordoned {
        return nodes[i];
      }
    }
  }

  method RemoveNode(c: Cloud, node: Node, ghost k: nat) returns (ok: bool)
    requires c.Valid() && k <= |c.trace| && DrainsFirst(c.trace, k)
    modifies c
    ensures c.Valid() && old(c.trace) <= c.trace && DrainsFirst(c.trace, k)
    ensures c.reliable && !c.spot && node.id in old(c.pool).nodes ==>
      ok && c.pool.desired == old(c.pool).desired - 1
  {
    ghost var mid;
    ok, mid := c.CordonNode(node);
    ghost var t, p := c.trace, c.pool;
    DrainsFirstJoin(old(c.trace), t, k);
    if ok {
      ok := c.TerminateNode(node, true);
      TerminationDrainsFirst(c.trace, |t|, node.id, true, p);
      DrainsFirstJoin(t, c.trace, k);
    }
  }

  lemma TerminationDrainsFirst(t: seq<Step>, k: nat, id: string, decrement: bool, start: Pool)
    requires TerminationSteps(t, k, id, decrement, start)
    requires id in start.nodes && start.nodes[id].cordoned
    ensures DrainsFirst(t, k)
  {
    if |t| == k + 4 {
      assert t[k + 1].event == Drained(id) && id in Cordoned(t[k + 1].before);
      assert DrainedBefore(t, k + 3, id);
    }
  }

  /******* Scaling out *******/

  /** The size at which at least `surge` nodes are new, unless none is outdated. */
  function ScaledOut(outdated: nat, desired: nat, surge: nat): nat {
    if outdated == 0 then desired else Max(desired, outdated + surge)
  }

  /** What holds while a pool is being scaled out from `start`, k steps into the trace. */
  ghost predicate ScalingOut(c: Cloud, start: Pool, k: nat, surge: nat)
    reads c
  {
    && c.Valid() && WellFormed(start) && k <= |c.trace|
    && Grown(start, c.pool, c.spot)
    && ScalesOut(c.trace, k)
    && (c.pool.desired == start.desired || (!c.spot && Old(start) != {} && c.pool.desired <= |Old(start)| + surge))
  }

  method ScaleOutAndWaitForNodesToBeReady(c: Cloud, surge: nat) returns (r: Result<Snapshot>)
    requires c.Valid() && (c.spot ==> surge == 0)
    modifies c
    ensures c.Valid() && old(c.trace) <= c.trace && ScalesOut(c.trace, |old(c.trace)|)
    ensures Grown(old(c.pool), c.pool, c.spot)
    ensures r.Ok? ==> Lists(r.value, c.pool) && (c.spot || Settled(c.pool)) && |c.trace| > |old(c.trace)|
    ensures r.Ok? && !c.spot ==> c.pool.desired == ScaledOut(|Old(old(c.pool))|, old(c.pool).desired, surge)
    ensures !c.spot ==> c.pool.desired <= ScaledOut(|Old(old(c.pool))|, old(c.pool).desired, surge)
    ensures c.reliable && r.Err? ==> TimedOut(c.trace, |old(c.trace)|)
  {
    CloudEvolves(c.pool, c.pool, c.spot);
    r := Err;
    var again := true;
    while again
      invariant ScalingOut(c, old(c.pool), |old(c.trace)|, surge) && old(c.trace) <= c.trace
      invariant again ==> c.pool.desired == old(c.pool).desired || !c.spot
      invariant !again && r.Ok? ==> Lists(r.value, c.pool) && (c.spot || Settled(c.pool)) && |c.trace| > |old(c.trace)|
      invariant !again && r.Ok? && !c.spot ==>
        c.pool.desired == ScaledOut(|Old(old(c.pool))|, old(c.pool).desired, surge)
      invariant !again && r.Err? && c.reliable ==> TimedOut(c.trace, |old(c.trace)|)
      decreases again, Max(0, |Old(old(c.pool))| + surge - c.pool.desired)
    {
      r, again := ScaleOutOnce(c, surge, old(c.pool), |old(c.trace)|);
    }
  }

  method ScaleOutOnce(c: Cloud, surge: nat, ghost start: Pool, ghost k: nat) returns (r: Result<Snapshot>, again: bool)
    requires ScalingOut(c, start, k, surge) && (c.spot ==> surge == 0)
    modifies c
    ensures ScalingOut(c, start, k, surge) && old(c.trace) <= c.trace
    ensures again ==> !c.spot && old(c.pool).desired < c.pool.desired <= |Old(start)| + surge
    ensures !again && r.Ok? ==> Lists(r.value, c.pool) && (c.spot || Settled(c.pool)) && |c.trace| > |old(c.trace)|
    ensures !again && r.Ok? && !c.spot ==> c.pool.desired == ScaledOut(|Old(start)|, start.desired, surge)
    ensures !again && r.Err? && c.reliable ==> TimedOut(c.trace, k)
  {
    again := false;
    r := WaitScalingOut(c, surge, start, k);
    if r.Err? {
      return;
    }
    var pool := r.value;
    var tmpSurge := Min(pool.desired, surge);
    var _, newNodes := SplitOldNewNodes(pool);
    if |newNodes| >= tmpSurge {
      return;
    }
    var ok := GrowTo(c, pool.desired + tmpSurge - |newNodes|, start, k);
    if !ok {
      return Err, false;
    }
    again := true;
  }

  /** The wait between two scaling requests. */
  method WaitScalingOut(c: Cloud, surge: nat, ghost start: Pool, ghost k: nat) returns (r: Result<Snapshot>)
    requires ScalingOut(c, start, k, surge)
    modifies c
    ensures ScalingOut(c, start, k, surge) && old(c.trace) <= c.trace && c.pool.desired == old(c.pool).desired
    ensures r.Ok? ==> Lists(r.value, c.pool) && (c.spot || Settled(c.pool)) && |c.trace| > |old(c.trace)|
    ensures r.Ok? && !c.spot ==> |NewNodes(r.value.nodes, r.value.generation)| == c.pool.desired - |Old(start)|
    ensures r.Err? && c.reliable ==> TimedOut(c.trace, k)
  {
    r := c.WaitForDesiredNodes();
    QuietScalesOut(c.trace, |old(c.trace)|);
    ScalesOutJoin(old(c.trace), c.trace, k);
    GrownTransitive(start, old(c.pool), c.pool, c.spot);
    if r.Ok? && !c.spot {
      NewNodeCount(start, c.pool, r.value);
    }
  }

  lemma NewNodeCount(start: Pool, p: Pool, s: Snapshot)
    requires WellFormed(start) && Grown(start, p, false) && WellFormed(p) && Settled(p) && Lists(s, p)
    ensures |NewNodes(s.nodes, s.generation)| == p.desired - |Old(start)|
  {
    GrownKeeps(start, p);
    SnapshotOld(s, p);
    SplitSizes(p);
    SettledPools(p);
  }

  method GrowTo(c: Cloud, replicas: nat, ghost start: Pool, ghost k: nat) returns (ok: bool)
    requires c.Valid() && WellFormed(start) && !c.spot && replicas > c.pool.desired
    requires k <= |c.trace| && Grown(start, c.pool, false) && ScalesOut(c.trace, k)
    modifies c
    ensures c.Valid() && old(c.trace) <= c.trace && ScalesOut(c.trace, k) && Grown(start, c.pool, false)
    ensures old(c.pool).desired <= c.pool.desired <= replicas
    ensures ok ==> c.pool.desired == replicas
    ensures c.reliable && !ok ==> TimedOut(c.trace, |old(c.trace)|)
  {
    ok := ScalePool(c, replicas, 0);
    ScalesOutJoin(old(c.trace), c.trace, k);
    GrownTransitive(start, old(c.pool), c.pool, false);
  }

  /******* Choosing *******/

  /** The nodes to cordon after a choice. */
  function ChosenNodes(s: Snapshot, surge: nat, spot: bool): seq<Node> {
    var c := Selection(s, surge);
    if spot then c.toCordon + c.unmatched else c.toCordon
  }

  /** From step k on, no node is cordoned that was not chosen before. */
  ghost predicate ChosenFirst(t: seq<Step>, k: nat, surge: nat, spot: bool) {
    forall i {:trigger ChosenBefore(t, k, i, t[i].event.id, surge, spot)} ::
      k <= i < |t| && t[i].event.Cordon? ==> ChosenBefore(t, k, i, t[i].event.id, surge, spot)
  }

  ghost predicate ChosenBefore(t: seq<Step>, k: nat, i: nat, id: string, surge: nat, spot: bool)
    requires i <= |t|
  {
    exists j :: k <= j < i && t[j].event.Choose? && id in IdSet(ChosenNodes(t[j].event.snapshot, surge, spot))
  }

  lemma ChosenFirstJoin(t: seq<Step>, u: seq<Step>, k: nat, surge: nat, spot: bool)
    requires k <= |t| && t <= u && ChosenFirst(t, k, surge, spot) && ChosenFirst(u, |t|, surge, spot)
    ensures ChosenFirst(u, k, surge, spot)
  {
    forall i | k <= i < |u| && u[i].event.Cordon? ensures ChosenBefore(u, k, i, u[i].event.id, surge, spot) {
      var id := u[i].event.id;
      if i < |t| {
        assert ChosenBefore(t, k, i, t[i].event.id, surge, spot);
        var j :| k <= j < i && t[j].event.Choose? && id in IdSet(ChosenNodes(t[j].event.snapshot, surge, spot));
        assert u[j] == t[j];
      } else {
        assert ChosenBefore(u, |t|, i, id, surge, spot);
        var j :| |t| <= j < i && u[j].event.Choose? && id in IdSet(ChosenNodes(u[j].event.snapshot, surge, spot));
      }
    }
  }

  lemma NoCordonChosen(t: seq<Step>, k: nat, surge: nat, spot: bool)
    requires NoCordon(t, k)
    ensures ChosenFirst(t, k, surge, spot)
  {
    forall i | k <= i < |t| ensures !t[i].event.Cordon? {
      At(t, k, IsNoCordon(), i);
    }
  }

  /** A choice, and after it cordons of chosen nodes. */
  lemma ChoiceFirst(t: seq<Step>, k: nat, surge: nat, spot: bool)
    requires k < |t| && t[k].event.Choose?
    requires EachFrom(t, k + 1, IsCordonOf(IdSet(ChosenNodes(t[k].event.snapshot, surge, spot))))
    ensures ChosenFirst(t, k, surge, spot)
  {
    forall i | k <= i < |t| && t[i].event.Cordon? ensures ChosenBefore(t, k, i, t[i].event.id, surge, spot) {
      At(t, k + 1, IsCordonOf(IdSet(ChosenNodes(t[k].event.snapshot, surge, spot))), i);
    }
  }

  /** How many nodes a step asks for because their failure domain has no new node. */
  function Owes(st: Step, surge: nat): nat {
    if st.event.Choose? then |Selection(st.event.snapshot, surge).unmatched| else 0
  }

  /** How many the choices from step k on ask for. */
  ghost function OwedFrom(t: seq<Step>, k: nat, surge: nat): nat {
    if |t| <= k then 0 else OwedFrom(t[..|t| - 1], k, surge) + Owes(t[|t| - 1], surge)
  }

  lemma {:induction false} OwedJoin(t: seq<Step>, k: nat, m: nat, surge: nat)
    requires k <= m <= |t|
    ensures OwedFrom(t, k, surge) == OwedFrom(t[..m], k, surge) + OwedFrom(t, m, surge)
  {
    if |t| == m {
      assert t[..m] == t;
    } else {
      var init := t[..|t| - 1];
      OwedJoin(init, k, m, surge);
      assert init[..m] == t[..m];
    }
  }

  lemma {:induction false} NoChoiceOwes(t: seq<Step>, k: nat, surge: nat)
    requires EachFrom(t, k, IsNoChoice())
    ensures OwedFrom(t, k, surge) == 0
  {
    if k < |t| {
      At(t, k, IsNoChoice(), |t| - 1);
      Prefix(t, |t| - 1, k, IsNoChoice());
      NoChoiceOwes(t[..|t| - 1], k, surge);
    }
  }

  /** One choice at the beginning, and none after it. */
  lemma OneChoice(t: seq<Step>, k: nat, surge: nat)
    requires k < |t| && EachFrom(t, k + 1, IsNoChoice())
    ensures OwedFrom(t, k, surge) == Owes(t[k], surge)
  {
    OwedJoin(t, k, k + 1, surge);
    NoChoiceOwes(t, k + 1, surge);
    assert t[..k + 1][..k] == t[..k];
    assert OwedFrom(t[..k], k, surge) == 0;
  }

  lemma {:induction false} NoRaise(t: seq<Step>, k: nat)
    requires NoScale(t, k)
    ensures RaisedFrom(t, k) == 0
  {
    if k < |t| {
      At(t, k, IsNoScale(), |t| - 1);
      Prefix(t, |t| - 1, k, IsNoScale());
      NoRaise(t[..|t| - 1], k);
    }
  }

  lemma ScalesOutNoChoice(t: seq<Step>, k: nat, surge: nat)
    requires ScalesOut(t, k)
    ensures OwedFrom(t, k, surge) == 0
  {
    EachImplies(t, k, IsScaleOut(), IsNoChoice());
    NoChoiceOwes(t, k, surge);
  }

  /******* Terminating *******/

  /** From step k on, the update keeps to its rules. */
  ghost predicate Orderly(t: seq<Step>, k: nat, surge: nat, spot: bool) {
    SafeFrom(t, k) && DrainsFirst(t, k) && ChosenFirst(t, k, surge, spot) && (!spot ==> MeteredFrom(t, k, surge))
  }

  ghost predicate NoScale(t: seq<Step>, k: nat) {
    EachFrom(t, k, IsNoScale())
  }

  /** From step k on, nodes are neither chosen nor cordoned. */
  ghost predicate NoCordon(t: seq<Step>, k: nat) {
    EachFrom(t, k, IsNoCordon())
  }

  lemma OrderlyJoin(t: seq<Step>, u: seq<Step>, k: nat, surge: nat, spot: bool)
    requires k <= |t| && t <= u && Orderly(t, k, surge, spot) && Orderly(u, |t|, surge, spot)
    ensures Orderly(u, k, surge, spot)
  {
    DrainsFirstJoin(t, u, k);
    ChosenFirstJoin(t, u, k, surge, spot);
    EachJoin(t, u, k, IsSafe());
    if !spot {
      EachJoin(t, u, k, IsMetered(surge));
    }
  }

  lemma ScalesOutOrderly(t: seq<Step>, k: nat, surge: nat, spot: bool)
    requires ScalesOut(t, k)
    ensures Orderly(t, k, surge, spot) && NoCordon(t, k)
  {
    EachImplies(t, k, IsScaleOut(), IsSafe());
    EachImplies(t, k, IsScaleOut(), IsMetered(surge));
    EachImplies(t, k, IsScaleOut(), IsNoCordon());
    NoCordonChosen(t, k, surge, spot);
    forall i | k <= i < |t| ensures !t[i].event.Terminate? {
      At(t, k, IsScaleOut(), i);
    }
  }

  /** One termination keeps to the rules if the node is outdated and cordoned and
      the number of outdated nodes decided whether to decrement. */
  lemma TerminationOrderly(t: seq<Step>, k: nat, id: string, decrement: bool, start: Pool, surge: nat, spot: bool)
    requires TerminationSteps(t, k, id, decrement, start) && Chain(t, spot)
    requires id in Old(start) && id in Cordoned(start)
    requires !spot ==> (decrement <==> |Old(start)| <= surge)
    ensures Orderly(t, k, surge, spot) && NoScale(t, k) && NoCordon(t, k)
  {
    TerminationDrainsFirst(t, k, id, decrement, start);
    TerminationPlain(t, k, id, decrement, start);
    NoCordonChosen(t, k, surge, spot);
    TerminationSafe(t, k, id, decrement, start);
    if !spot {
      TerminationMetered(t, k, id, decrement, start, surge);
    }
  }

  lemma TerminationPlain(t: seq<Step>, k: nat, id: string, decrement: bool, start: Pool)
    requires TerminationSteps(t, k, id, decrement, start)
    ensures NoScale(t, k) && NoCordon(t, k)
  {
    forall i | k <= i < |t| ensures !t[i].event.Scale? && !t[i].event.Cordon? && !t[i].event.Choose? {
      assert i == k || i == k + 1 || i == k + 2 || i == k + 3;
    }
  }

  lemma OutdatedLater(start: Pool, p: Pool, id: string)
    requires Found(start, p, id) && id in Old(start) && id in Cordoned(start)
    ensures id in Old(p) && id in Cordoned(p)
  {
  }

  lemma TerminationSafe(t: seq<Step>, k: nat, id: string, decrement: bool, start: Pool)
    requires TerminationSteps(t, k, id, decrement, start)
    requires id in Old(start) && id in Cordoned(start)
    ensures SafeFrom(t, k)
  {
    forall i | k <= i < |t| ensures Safe(t[i]) {
      if i == k + 1 || i == k + 3 {
        OutdatedLater(start, t[i].before, id);
      } else {
        assert i == k || i == k + 2;
      }
    }
  }

  lemma OldKept(t: seq<Step>, i: nat)
    requires Chain(t, false) && i + 1 < |t| && !t[i].event.Terminate?
    ensures Old(t[i + 1].before) == Old(t[i].before)
  {
    At(t, 0, IsEffect(false), i);
    OldAfter(t[i]);
    assert t[i].after == t[i + 1].before;
  }

  lemma TerminationMetered(t: seq<Step>, k: nat, id: string, decrement: bool, start: Pool, surge: nat)
    requires TerminationSteps(t, k, id, decrement, start) && Chain(t, false)
    requires decrement <==> |Old(start)| <= surge
    ensures MeteredFrom(t, k, surge)
  {
    if |t| == k + 4 {
      OldKept(t, k);
      OldKept(t, k + 1);
      OldKept(t, k + 2);
      MeteredFour(t, k, id, decrement, surge);
    } else {
      forall i | k <= i < |t| ensures Metered(t[i], surge) {
        assert i == k || i == k + 1 || i == k + 2;
      }
    }
  }

  lemma MeteredFour(t: seq<Step>, k: nat, id: string, decrement: bool, surge: nat)
    requires |t| == k + 4 && t[k].event.CloudActs? && t[k + 1].event.Drained? && t[k + 2].event.CloudActs?
    requires t[k + 3].event == Terminate(id, decrement) && (decrement <==> |Old(t[k + 3].before)| <= surge)
    ensures MeteredFrom(t, k, surge)
  {
    forall i | k <= i < |t| ensures Metered(t[i], surge) {
      assert i == k || i == k + 1 || i == k + 2 || i == k + 3;
    }
  }

  function FilterNodesToTerminate(nodes: seq<Node>): seq<Node> {
    if nodes == [] then [] else
      FilterNodesToTerminate(nodes[..|nodes| - 1]) +
      if nodes[|nodes| - 1].cordoned then [nodes[|nodes| - 1]] else []
  }

  lemma {:induction false} ToTerminate(nodes: seq<Node>)
    ensures forall n :: n in FilterNodesToTerminate(nodes) <==> n in nodes && n.cordoned
    ensures DistinctIds(nodes) ==> DistinctIds(FilterNodesToTerminate(nodes))
  {
    if nodes != [] {
      var init, last := nodes[..|nodes| - 1], nodes[|nodes| - 1];
      ToTerminate(init);
      assert nodes == init + [last];
    }
  }

  /** Terminates the cordoned outdated nodes of the snapshot one by one; the last
      `surge` of the outdated nodes take their capacity with them. */
  method TerminateCordonedNodes(c: Cloud, pool: Snapshot, surge: nat) returns (ok: bool)
    requires c.Valid() && Lists(pool, c.pool)
    modifies c
    ensures Terminating(c, old(c.pool), |old(c.trace)|, surge) && old(c.trace) <= c.trace
    ensures ok ==> Old(old(c.pool)) * Cordoned(old(c.pool)) <= c.pool.gone
    ensures c.reliable && !c.spot ==> ok
  {
    var oldNodes, _ := SplitOldNewNodes(pool);
    var todo := FilterNodesToTerminate(oldNodes);
    ghost var start := c.pool;
    TodoFacts(pool, start, oldNodes, todo);
    ok := TerminateAll(c, todo, |oldNodes|, surge);
  }

  /** The cordoned outdated nodes, with the number of all outdated ones. */
  method TerminateAll(c: Cloud, todo: seq<Node>, outdated: nat, surge: nat) returns (ok: bool)
    requires c.Valid() && outdated == |Old(c.pool)| && DistinctIds(todo)
    requires forall j :: 0 <= j < |todo| ==> todo[j].id in Old(c.pool) && todo[j].id in Cordoned(c.pool)
    modifies c
    ensures Terminating(c, old(c.pool), |old(c.trace)|, surge) && old(c.trace) <= c.trace
    ensures ok ==> forall j :: 0 <= j < |todo| ==> todo[j].id in c.pool.gone
    ensures c.reliable && !c.spot ==> ok
  {
    ghost var start := c.pool;
    var numOldNodes: int := outdated;
    CloudEvolves(c.pool, c.pool, c.spot);
    for i := 0 to |todo|
      invariant Terminating(c, start, |old(c.trace)|, surge) && old(c.trace) <= c.trace
      invariant forall j :: 0 <= j < i ==> todo[j].id in c.pool.gone
      invariant !c.spot ==> numOldNodes == |Old(c.pool)| && forall j :: i <= j < |todo| ==> todo[j].id in Old(c.pool)
    {
      ghost var p := c.pool;
      ok := TerminateOutdated(c, todo[i], numOldNodes <= surge, surge, start, |old(c.trace)|);
      if !ok {
        return;
      }
      if !c.spot {
        OthersLeft(todo, i, Old(p), Old(c.pool));
      }
      numOldNodes := numOldNodes - 1;
    }
    ok := true;
  }

  lemma OthersLeft(todo: seq<Node>, i: nat, before: set<string>, after: set<string>)
    requires i < |todo| && DistinctIds(todo) && after == before - {todo[i].id}
    requires forall j :: i <= j < |todo| ==> todo[j].id in before
    ensures |after| == |before| - 1
    ensures forall j :: i + 1 <= j < |todo| ==> todo[j].id in after
  {
    assert before == after + {todo[i].id};
  }

  lemma TodoFacts(pool: Snapshot, p: Pool, oldNodes: seq<Node>, todo: seq<Node>)
    requires Lists(pool, p) && oldNodes == OldNodes(pool.nodes, pool.generation)
    requires todo == FilterNodesToTerminate(oldNodes)
    ensures |oldNodes| == |Old(p)| && DistinctIds(todo)
    ensures forall j :: 0 <= j < |todo| ==> todo[j].id in Old(p) && todo[j].id in Cordoned(p)
    ensures forall id :: id in Old(p) * Cordoned(p) ==> exists j :: 0 <= j < |todo| && todo[j].id == id
  {
    SnapshotOld(pool, p);
    ToTerminate(oldNodes);
    forall j | 0 <= j < |todo| ensures todo[j].id in Old(p) && todo[j].id in Cordoned(p) {
      assert todo[j] in todo;
    }
    forall id | id in Old(p) * Cordoned(p) ensures exists j :: 0 <= j < |todo| && todo[j].id == id {
      assert id in IdSet(oldNodes);
      var n :| n in oldNodes && n.id == id;
      assert n in todo;
    }
  }

  /** What holds while nodes read at `start`, k steps into the trace, are terminated. */
  ghost predicate Terminating(c: Cloud, start: Pool, k: nat, surge: nat)
    reads c
  {
    && c.Valid() && k <= |c.trace| && Evolves(start, c.pool)
    && Orderly(c.trace, k, surge, c.spot) && NoScale(c.trace, k) && NoCordon(c.trace, k)
    && (!c.spot ==> Cordoned(c.pool) <= Cordoned(start))
  }

  method TerminateOutdated(c: Cloud, node: Node, decrement: bool, ghost surge: nat, ghost start: Pool, ghost k: nat)
    returns (ok: bool)
    requires Terminating(c, start, k, surge)
    requires node.id in Old(start) && node.id in Cordoned(start)
    requires !c.spot ==> node.id in Old(c.pool) && (decrement <==> |Old(c.pool)| <= surge)
    modifies c
    ensures Terminating(c, start, k, surge) && old(c.trace) <= c.trace && old(c.pool).gone <= c.pool.gone
    ensures ok ==> node.id in c.pool.gone
    ensures ok && !c.spot ==> Old(c.pool) == Old(old(c.pool)) - {node.id}
    ensures c.reliable && !c.spot ==> ok
  {
    ok := c.TerminateNode(node, decrement);
    EvolvesTransitive(start, old(c.pool), c.pool);
    if node.id in old(c.pool).nodes {
      OutdatedLater(start, old(c.pool), node.id);
      TerminationOrderly(c.trace, |old(c.trace)|, node.id, decrement, old(c.pool), surge, c.spot);
    } else {
      GoneOrderly(c.trace, |old(c.trace)|, node.id, decrement, old(c.pool), surge, c.spot);
    }
    TerminatingJoin(old(c.trace), c.trace, k, surge, c.spot);
  }

  /** Asked for a node that is gone, a termination does nothing. */
  lemma GoneOrderly(t: seq<Step>, k: nat, id: string, decrement: bool, start: Pool, surge: nat, spot: bool)
    requires TerminationSteps(t, k, id, decrement, start) && id in start.gone
    ensures Orderly(t, k, surge, spot) && NoScale(t, k) && NoCordon(t, k)
  {
    assert |t| == k + 1;
    TerminationPlain(t, k, id, decrement, start);
    NoCordonChosen(t, k, surge, spot);
  }

  lemma TerminatingJoin(t: seq<Step>, u: seq<Step>, k: nat, surge: nat, spot: bool)
    requires k <= |t| && t <= u && Orderly(t, k, surge, spot) && NoScale(t, k) && NoCordon(t, k)
    requires Orderly(u, |t|, surge, spot) && NoScale(u, |t|) && NoCordon(u, |t|)
    ensures Orderly(u, k, surge, spot) && NoScale(u, k) && NoCordon(u, k)
  {
    OrderlyJoin(t, u, k, surge, spot);
    EachJoin(t, u, k, IsNoScale());
    EachJoin(t, u, k, IsNoCordon());
  }

  /******* Cordoning *******/

  /** What holds while nodes read at `start`, k steps into the trace, are cordoned. */
  ghost predicate Cordoning(c: Cloud, start: Pool, k: nat, nodes: set<string>)
    reads c
  {
    && c.Valid() && k <= |c.trace| && Evolves(start, c.pool)
    && SafeFrom(c.trace, k)
    && EachFrom(c.trace, k, IsCordonOrQuiet())
    && EachFrom(c.trace, k, IsCordonOf(nodes))
    && (!c.spot ==>
         Old(c.pool) == Old(start) && c.pool.desired == start.desired && (Settled(start) ==> Settled(c.pool)))
    && (!c.spot ==> Cordoned(c.pool) <= Cordoned(start) + nodes)
  }

  /** The nodes can all be cordoned within the surge. */
  ghost predicate Affordable(start: Pool, nodes: seq<Node>, surge: nat) {
    Settled(start) && Cordoned(start) == {} && DistinctIds(nodes) && |nodes| <= surge
  }

  method CordonNodes(c: Cloud, nodes: seq<Node>, ghost surge: nat) returns (ok: bool)
    requires c.Valid() && IdSet(nodes) <= Old(c.pool)
    modifies c
    ensures Cordoning(c, old(c.pool), |old(c.trace)|, IdSet(nodes)) && old(c.trace) <= c.trace
    ensures !c.spot && Affordable(old(c.pool), nodes, surge) ==> RestrainedFrom(c.trace, |old(c.trace)|, surge)
    ensures ok ==> IdSet(nodes) <= c.pool.gone + Cordoned(c.pool)
    ensures c.reliable && !c.spot ==> ok
  {
    ghost var start := c.pool;
    CloudEvolves(c.pool, c.pool, c.spot);
    for i := 0 to |nodes|
      invariant Cordoning(c, start, |old(c.trace)|, IdSet(nodes)) && old(c.trace) <= c.trace
      invariant !c.spot && Affordable(start, nodes, surge) ==> RestrainedFrom(c.trace, |old(c.trace)|, surge)
      invariant forall j :: 0 <= j < i ==> nodes[j].id in c.pool.gone + Cordoned(c.pool)
    {
      assert nodes[i].id in IdSet(nodes);
      ok := CordonOutdated(c, nodes[i], nodes, surge, start, |old(c.trace)|);
      if !ok {
        return;
      }
    }
    ok := true;
  }

  method CordonOutdated(c: Cloud, node: Node, ghost nodes: seq<Node>, ghost surge: nat, ghost start: Pool, ghost k: nat)
    returns (ok: bool)
    requires Cordoning(c, start, k, IdSet(nodes)) && node.id in IdSet(nodes) && IdSet(nodes) <= Old(start)
    requires !c.spot && Affordable(start, nodes, surge) ==> RestrainedFrom(c.trace, k, surge)
    modifies c
    ensures Cordoning(c, start, k, IdSet(nodes)) && old(c.trace) <= c.trace
    ensures !c.spot && Affordable(start, nodes, surge) ==> RestrainedFrom(c.trace, k, surge)
    ensures old(c.pool.gone + Cordoned(c.pool)) <= c.pool.gone + Cordoned(c.pool)
    ensures ok ==> node.id in Cordoned(c.pool)
    ensures c.reliable && !c.spot ==> ok
  {
    ghost var mid: Pool;
    ok, mid := c.CordonNode(node);
    EvolvesTransitive(start, old(c.pool), mid);
    EvolvesTransitive(start, old(c.pool), c.pool);
    EvolvesCordoned(old(c.pool), c.pool);
    if !c.spot {
      CloudKeeps(old(c.pool), mid);
      assert node.id in Old(mid);
    }
    ghost var st := Step(old(c.pool), CloudActs, mid);
    ghost var affordable := !c.spot && Affordable(start, nodes, surge);
    PlainStep(old(c.trace), k, st, IdSet(nodes), surge, affordable);
    if c.trace != old(c.trace) + [st] {
      OutdatedStays(start, mid, node.id);
      if !c.spot {
        CordonFacts(start, mid, node.id, nodes, surge);
      }
      assert c.trace == (old(c.trace) + [st]) + [Step(mid, Cordon(node.id), c.pool)];
      PlainStep(old(c.trace) + [st], k, Step(mid, Cordon(node.id), c.pool), IdSet(nodes), surge, affordable);
    }
  }

  lemma PlainStep(t: seq<Step>, k: nat, st: Step, ids: set<string>, surge: nat, restrained: bool)
    requires SafeFrom(t, k) && EachFrom(t, k, IsCordonOrQuiet()) && EachFrom(t, k, IsCordonOf(ids))
    requires Safe(st) && (st.event.CloudActs? || (st.event.Cordon? && st.event.id in ids))
    requires restrained ==> RestrainedFrom(t, k, surge) && Restrained(st, surge)
    ensures SafeFrom(t + [st], k) && EachFrom(t + [st], k, IsCordonOrQuiet()) && EachFrom(t + [st], k, IsCordonOf(ids))
    ensures restrained ==> RestrainedFrom(t + [st], k, surge)
  {
    EachSnoc(t, k, st, IsSafe());
    EachSnoc(t, k, st, IsCordonOrQuiet());
    EachSnoc(t, k, st, IsCordonOf(ids));
    if restrained {
      EachSnoc(t, k, st, IsRestrained(surge));
    }
  }

  lemma EvolvesCordoned(p: Pool, q: Pool)
    requires Evolves(p, q)
    ensures p.gone + Cordoned(p) <= q.gone + Cordoned(q)
  {
  }

  lemma OutdatedStays(start: Pool, p: Pool, id: string)
    requires Evolves(start, p) && WellFormed(p) && id in p.nodes && id in Old(start)
    ensures id in Old(p)
  {
  }

  lemma CordonFacts(start: Pool, p: Pool, id: string, nodes: seq<Node>, surge: nat)
    requires WellFormed(p) && id in p.nodes && id in IdSet(nodes) && IdSet(nodes) <= Old(start)
    requires Old(p) == Old(start) && Cordoned(p) <= Cordoned(start) + IdSet(nodes)
    ensures var q := WithCordon(p, id);
      && Old(q) == Old(p) && Ready(q) == Ready(p) && Cordoned(q) == Cordoned(p) + {id}
      && (Affordable(start, nodes, surge) ==> CordonBound(q, surge))
  {
    CordonChanges(p, id);
    if Affordable(start, nodes, surge) {
      CordonWithin(start, WithCordon(p, id), nodes, surge);
    }
  }

  lemma CordonChanges(p: Pool, id: string)
    requires id in p.nodes
    ensures var q := WithCordon(p, id); Old(q) == Old(p) && Ready(q) == Ready(p) && Cordoned(q) == Cordoned(p) + {id}
  {
  }

  lemma CordonWithin(start: Pool, q: Pool, nodes: seq<Node>, surge: nat)
    requires Affordable(start, nodes, surge) && IdSet(nodes) <= Old(start)
    requires Old(q) == Old(start) && Cordoned(q) <= IdSet(nodes)
    ensures CordonBound(q, surge)
  {
    IdSetSize(nodes);
    SubsetSize(Cordoned(q), IdSet(nodes));
    SubsetSize(IdSet(nodes), Old(start));
  }

  /******* One pass *******/

  function Uncordoned(p: Pool): set<string> {
    Old(p) - Cordoned(p)
  }

  lemma OldShrinks(p: Pool, q: Pool)
    requires WellFormed(q) && Evolves(p, q)
    ensures Old(q) <= Old(p) && Uncordoned(q) <= Uncordoned(p)
  {
  }

  lemma {:induction false} DistinctPart(part: seq<Node>, all: seq<Node>)
    requires multiset(part) <= multiset(all) && DistinctIds(all)
    ensures DistinctIds(part) && forall n :: n in part ==> n in all
  {
    forall n | n in part ensures n in all {
      assert n in multiset(part);
      assert n in multiset(all);
    }
    forall i, j | 0 <= i < j < |part| ensures part[i].id != part[j].id {
      if part[i].id == part[j].id {
        assert part[i] in all && part[j] in all;
        assert part[i] == part[j];
        Twice(part, i, j);
        Once(all, part[i]);
        assert false;
      }
    }
  }

  lemma Twice(s: seq<Node>, i: nat, j: nat)
    requires i < j < |s| && s[i] == s[j]
    ensures multiset(s)[s[i]] >= 2
  {
    assert s == s[..j] + s[j..];
    assert s[i] in s[..j] && s[j] in s[j..];
    assert s[..j][i] == s[i] && s[j..][0] == s[j];
    assert multiset(s) == multiset(s[..j]) + multiset(s[j..]);
  }

  lemma {:induction false} Once(s: seq<Node>, n: Node)
    requires DistinctIds(s)
    ensures multiset(s)[n] <= 1
  {
    if s != [] {
      var init, last := s[..|s| - 1], s[|s| - 1];
      Once(init, n);
      assert s == init + [last];
      assert multiset(s) == multiset(init) + multiset{last};
      if last == n {
        assert forall i :: 0 <= i < |init| ==> init[i] == s[i] && init[i] != n;
        assert n !in init;
      }
    }
  }

  /** Read at p, the nodes selected for cordoning are outdated, distinct and at
      most `surge`; if nothing is in the way they are as many as there can be. */
  lemma SelectionOf(s: Snapshot, p: Pool, surge: nat, toCordon: seq<Node>, spot: bool)
    requires Lists(s, p)
    requires toCordon == ChosenNodes(s, surge, spot)
    ensures IdSet(toCordon) <= Old(p) && DistinctIds(toCordon) && |toCordon| <= surge
    ensures spot || VolumeFree(p) ==> |toCordon| == Min(surge, |Old(p)|)
    ensures VolumeFree(p) ==> Selection(s, surge).unmatched == []
  {
    var c := Selection(s, surge);
    var oldNodes := OldNodes(s.nodes, s.generation);
    SnapshotOld(s, p);
    SelectionSize(s, surge);
    assert multiset(c.toCordon + c.unmatched) == multiset(c.toCordon) + multiset(c.unmatched);
    assert multiset(toCordon) <= multiset(oldNodes);
    DistinctPart(toCordon, oldNodes);
    if VolumeFree(p) {
      SelectionVolumeFree(s, surge);
    }
  }

  /** All of the nodes are cordoned, or already gone. */
  ghost predicate Taken(nodes: seq<Node>, p: Pool) {
    IdSet(nodes) <= p.gone + Cordoned(p)
  }

  lemma StillTaken(nodes: seq<Node>, p: Pool, q: Pool)
    requires Taken(nodes, p) && (q == p || (p.gone <= q.gone && Cordoned(q) == Cordoned(p)))
    ensures Taken(nodes, q)
  {
  }

  /** Chooses the nodes to replace next, cordons them, and scales out by exactly as many
      nodes as have no new node in their failure domain. */
  method CordonNext(c: Cloud, pool: Snapshot, surge: nat) returns (ok: bool)
    requires c.Valid() && Lists(pool, c.pool) && (c.spot || Settled(c.pool)) && surge >= 1
    modifies c
    ensures c.Valid() && old(c.trace) <= c.trace && Orderly(c.trace, |old(c.trace)|, surge, c.spot)
    ensures |old(c.trace)| < |c.trace| && c.trace[|old(c.trace)|].event == Choose(pool)
    ensures OwedFrom(c.trace, |old(c.trace)|, surge) == |Selection(pool, surge).unmatched|
    ensures !c.spot ==> Raises(c.trace, |old(c.trace)|, |Selection(pool, surge).unmatched|, ok)
    ensures !c.spot && Cordoned(old(c.pool)) == {} ==> RestrainedFrom(c.trace, |old(c.trace)|, surge)
    ensures Old(c.pool) <= Old(old(c.pool))
    ensures ok && (c.spot || VolumeFree(old(c.pool))) ==> |Uncordoned(c.pool)| <= Max(0, |Old(old(c.pool))| - surge)
    ensures ok ==> Taken(ChosenNodes(pool, surge, c.spot), c.pool)
    ensures c.reliable && !c.spot && !ok ==> TimedOut(c.trace, |old(c.trace)|)
  {
    var unmatched;
    ok, unmatched := CordonChosen(c, pool, surge);
    ghost var k, t := |old(c.trace)|, c.trace;
    NoRaise(t, k);
    if ok {
      ghost var mid := c.pool;
      ok := IncreaseByUnmatchedNodes(c, pool.desired, unmatched, k, surge);
      IncreaseJoin(t, c.trace, k, surge);
      StillTaken(ChosenNodes(pool, surge, c.spot), mid, c.pool);
    }
  }

  /** The scaling requests from step k on add up to an amount, or less if one failed. */
  ghost predicate Raises(t: seq<Step>, k: nat, amount: nat, ok: bool) {
    0 <= RaisedFrom(t, k) <= amount && (ok ==> RaisedFrom(t, k) == amount)
  }

  lemma IncreaseJoin(t: seq<Step>, u: seq<Step>, k: nat, surge: nat)
    requires k <= |t| && t <= u
    ensures RaisedFrom(u, k) == RaisedFrom(t, k) + RaisedFrom(u, |t|)
    ensures OwedFrom(u, k, surge) == OwedFrom(t, k, surge) + OwedFrom(u, |t|, surge)
  {
    RaisedJoin(u, k, |t|);
    OwedJoin(u, k, |t|, surge);
    assert u[..|t|] == t;
  }

  /** Chooses and cordons. */
  method CordonChosen(c: Cloud, pool: Snapshot, surge: nat) returns (ok: bool, unmatched: seq<Node>)
    requires c.Valid() && Lists(pool, c.pool) && (c.spot || Settled(c.pool)) && surge >= 1
    modifies c
    ensures c.Valid() && old(c.trace) <= c.trace && Orderly(c.trace, |old(c.trace)|, surge, c.spot)
    ensures |old(c.trace)| < |c.trace| && c.trace[|old(c.trace)|].event == Choose(pool)
    ensures NoScale(c.trace, |old(c.trace)|)
    ensures OwedFrom(c.trace, |old(c.trace)|, surge) == |Selection(pool, surge).unmatched|
    ensures unmatched == if c.spot then [] else Selection(pool, surge).unmatched
    ensures !c.spot && Cordoned(old(c.pool)) == {} ==> RestrainedFrom(c.trace, |old(c.trace)|, surge)
    ensures Old(c.pool) <= Old(old(c.pool)) && (!c.spot ==> c.pool.desired == old(c.pool).desired)
    ensures ok && (c.spot || VolumeFree(old(c.pool))) ==> |Uncordoned(c.pool)| <= Max(0, |Old(old(c.pool))| - surge)
    ensures ok ==> Taken(ChosenNodes(pool, surge, c.spot), c.pool)
    ensures c.reliable && !c.spot ==> ok
  {
    var toCordon;
    toCordon, unmatched := ComputeNodesList(pool, surge);
    if c.spot {
      toCordon, unmatched := toCordon + unmatched, [];
    }
    SelectionOf(pool, c.pool, surge, toCordon, c.spot);
    c.Advance(Choose(pool), c.pool);
    ok := CordonAll(c, toCordon, surge, |old(c.trace)|);
  }

  /** Cordons the nodes of the choice that was just made. */
  method CordonAll(c: Cloud, nodes: seq<Node>, surge: nat, ghost k: nat) returns (ok: bool)
    requires c.Valid() && (c.spot || Settled(c.pool))
    requires |c.trace| == k + 1 && c.trace[k].event.Choose?
    requires nodes == ChosenNodes(c.trace[k].event.snapshot, surge, c.spot)
    requires IdSet(nodes) <= Old(c.pool) && DistinctIds(nodes) && |nodes| <= surge
    modifies c
    ensures c.Valid() && old(c.trace) <= c.trace && Orderly(c.trace, k, surge, c.spot) && NoScale(c.trace, k)
    ensures OwedFrom(c.trace, k, surge) == |Selection(c.trace[k].event.snapshot, surge).unmatched|
    ensures !c.spot && Cordoned(old(c.pool)) == {} ==> RestrainedFrom(c.trace, k, surge)
    ensures Old(c.pool) <= Old(old(c.pool)) && (!c.spot ==> c.pool.desired == old(c.pool).desired)
    ensures ok ==> |Uncordoned(c.pool)| <= |Old(old(c.pool))| - |nodes|
    ensures ok ==> Taken(nodes, c.pool)
    ensures c.reliable && !c.spot ==> ok
  {
    ok := CordonNodes(c, nodes, surge);
    assert c.trace[k] == old(c.trace)[k];
    ChoiceOrderly(c.trace, k, IdSet(nodes), surge, c.spot);
    OldShrinks(old(c.pool), c.pool);
    if ok {
      UncordonedLeft(old(c.pool), c.pool, nodes, surge);
    }
  }

  /** A choice with the cordons that follow it keeps to the rules. */
  lemma ChoiceOrderly(t: seq<Step>, k: nat, ids: set<string>, surge: nat, spot: bool)
    requires k < |t| && t[k].event.Choose? && ids == IdSet(ChosenNodes(t[k].event.snapshot, surge, spot))
    requires SafeFrom(t, k + 1) && EachFrom(t, k + 1, IsCordonOrQuiet()) && EachFrom(t, k + 1, IsCordonOf(ids))
    ensures Orderly(t, k, surge, spot) && NoScale(t, k)
    ensures OwedFrom(t, k, surge) == |Selection(t[k].event.snapshot, surge).unmatched|
    ensures RestrainedFrom(t, k + 1, surge) ==> RestrainedFrom(t, k, surge)
  {
    EachImplies(t, k + 1, IsCordonOrQuiet(), IsMetered(surge));
    EachImplies(t, k + 1, IsCordonOrQuiet(), IsNoScale());
    EachImplies(t, k + 1, IsCordonOrQuiet(), IsNoChoice());
    OneEarlier(t, k, IsSafe());
    OneEarlier(t, k, IsMetered(surge));
    OneEarlier(t, k, IsNoScale());
    if RestrainedFrom(t, k + 1, surge) {
      OneEarlier(t, k, IsRestrained(surge));
    }
    forall i | k <= i < |t| ensures !t[i].event.Terminate? {
      if i > k {
        At(t, k + 1, IsCordonOrQuiet(), i);
      }
    }
    ChoiceFirst(t, k, surge, spot);
    OneChoice(t, k, surge);
  }

  lemma OneEarlier(t: seq<Step>, k: nat, p: Step -> bool)
    requires k < |t| && EachFrom(t, k + 1, p) && p(t[k])
    ensures EachFrom(t, k, p)
  {
    forall i | k <= i < |t| ensures p(t[i]) {
      if i > k {
        At(t, k + 1, p, i);
      }
    }
  }

  lemma UncordonedLeft(start: Pool, p: Pool, nodes: seq<Node>, surge: nat)
    requires WellFormed(p) && Evolves(start, p) && IdSet(nodes) <= Old(start) && DistinctIds(nodes)
    requires IdSet(nodes) <= p.gone + Cordoned(p)
    ensures |Uncordoned(p)| <= |Old(start)| - |nodes|
  {
    OldShrinks(start, p);
    IdSetSize(nodes);
    assert Uncordoned(p) <= Old(start) - IdSet(nodes);
    SubsetSize(Uncordoned(p), Old(start) - IdSet(nodes));
    assert |Old(start) - IdSet(nodes)| == |Old(start)| - |IdSet(nodes)|;
  }

  /** Adds exactly as many nodes as are unmatched. */
  method IncreaseByUnmatchedNodes(c: Cloud, desired: nat, unmatched: seq<Node>, ghost k: nat, ghost surge: nat)
    returns (ok: bool)
    requires c.Valid() && (c.spot ==> unmatched == [])
    requires k <= |c.trace| && Orderly(c.trace, k, surge, c.spot) && (!c.spot ==> c.pool.desired == desired)
    modifies c
    ensures c.Valid() && old(c.trace) <= c.trace && Orderly(c.trace, k, surge, c.spot)
    ensures unmatched == [] ==> ok && c.pool == old(c.pool) && c.trace == old(c.trace)
    ensures !c.spot ==>
      NoCordon(c.trace, |old(c.trace)|) && Old(c.pool) == Old(old(c.pool)) && Cordoned(c.pool) == Cordoned(old(c.pool))
    ensures old(c.pool).gone <= c.pool.gone
    ensures old(RestrainedFrom(c.trace, k, surge)) ==> RestrainedFrom(c.trace, k, surge)
    ensures ok && !c.spot ==> c.pool.desired == desired + |unmatched|
    ensures !c.spot ==> Raises(c.trace, |old(c.trace)|, |unmatched|, ok)
    ensures OwedFrom(c.trace, |old(c.trace)|, surge) == 0
    ensures c.reliable && !c.spot && !ok ==> TimedOut(c.trace, |old(c.trace)|)
  {
    ok := true;
    if |unmatched| > 0 {
      CloudEvolves(c.pool, c.pool, c.spot);
      c.LastState();
      ok := GrowTo(c, desired + |unmatched|, c.pool, |c.trace|);
      c.LastState();
      ScalesOutOrderly(c.trace, |old(c.trace)|, surge, c.spot);
      ScalesOutNoChoice(c.trace, |old(c.trace)|, surge);
      OrderlyJoin(old(c.trace), c.trace, k, surge, c.spot);
      GrownKeeps(old(c.pool), c.pool);
      LedgerSince(c.trace, |old(c.trace)|, old(c.pool), c.pool, surge);
      if old(RestrainedFrom(c.trace, k, surge)) {
        EachWeaken(c.trace, |old(c.trace)|, surge);
        EachJoin(old(c.trace), c.trace, k, IsRestrained(surge));
      }
    }
  }

  /** Terminates what is cordoned and waits for the replacements. */
  method TerminateAndWait(c: Cloud, pool: Snapshot, surge: nat) returns (r: Result<Snapshot>)
    requires c.Valid() && Lists(pool, c.pool)
    modifies c
    ensures c.Valid() && old(c.trace) <= c.trace && Evolves(old(c.pool), c.pool)
    ensures Orderly(c.trace, |old(c.trace)|, surge, c.spot) && NoScale(c.trace, |old(c.trace)|)
    ensures NoCordon(c.trace, |old(c.trace)|)
    ensures r.Ok? ==> Lists(r.value, c.pool) && (c.spot || Settled(c.pool)) && |c.trace| > |old(c.trace)|
    ensures r.Ok? ==> Old(c.pool) <= Uncordoned(old(c.pool))
    ensures r.Ok? && !c.spot && CordonBound(old(c.pool), surge) ==> Cordoned(c.pool) == {}
    ensures c.reliable && !c.spot && r.Err? ==> TimedOut(c.trace, |old(c.trace)|)
  {
    var ok := TerminateCordonedNodes(c, pool, surge);
    ghost var t, p := c.trace, c.pool;
    var cancelled := c.Fault();
    if !ok || cancelled {
      return Err;
    }
    TerminatedAll(old(c.pool), p);
    r := c.WaitForDesiredNodes();
    CloudEvolves(p, c.pool, c.spot);
    OldShrinks(p, c.pool);
    EvolvesTransitive(old(c.pool), p, c.pool);
    QuietScalesOut(c.trace, |t|);
    EachImplies(c.trace, |t|, IsQuiet(), IsNoScale());
    ScalesOutOrderly(c.trace, |t|, surge, c.spot);
    TerminatingJoin(t, c.trace, |old(c.trace)|, surge, c.spot);
    if !c.spot {
      CloudKeeps(p, c.pool);
    }
  }

  lemma TerminatedAll(start: Pool, p: Pool)
    requires WellFormed(p) && Evolves(start, p) && Old(start) * Cordoned(start) <= p.gone
    ensures Old(p) <= Uncordoned(start)
    ensures Cordoned(p) <= Cordoned(start) <= Old(start) ==> Cordoned(p) == {}
  {
    OldShrinks(start, p);
    if Cordoned(p) <= Cordoned(start) <= Old(start) {
      assert Cordoned(p) <= Old(start) * Cordoned(start) <= p.gone;
      assert Cordoned(p) <= p.nodes.Keys && p.nodes.Keys !! p.gone;
    }
  }

  /** What replacing nodes has done, from step k and the pool p on. */
  ghost predicate Replaced(ok: bool, k: nat, p: Pool, t: seq<Step>, q: Pool, surge: nat, spot: bool) {
    && Orderly(t, k, surge, spot)
    && (!spot && CordonBound(p, surge) ==> RestrainedFrom(t, k, surge))
    && (!spot ==> Raises(t, k, OwedFrom(t, k, surge), ok))
    && (ok ==> Old(q) <= Uncordoned(p))
    && (ok && (spot || VolumeFreeFrom(t, k)) ==> |Uncordoned(q)| <= Max(0, |Uncordoned(p)| - surge))
  }

  /** Terminates what is cordoned, waits for the replacements and cordons the next
      nodes. */
  method ReplaceNodes(c: Cloud, pool: Snapshot, surge: nat) returns (ok: bool)
    requires c.Valid() && Lists(pool, c.pool) && surge >= 1
    modifies c
    ensures c.Valid() && old(c.trace) <= c.trace
    ensures Replaced(ok, |old(c.trace)|, old(c.pool), c.trace, c.pool, surge, c.spot)
    ensures c.reliable && !c.spot && !ok ==> TimedOut(c.trace, |old(c.trace)|)
  {
    var r := TerminateAndWait(c, pool, surge);
    ghost var k, t, p := |old(c.trace)|, c.trace, c.pool;
    ReplaceHalf(k, old(c.pool), t, p, surge, c.spot);
    var cancelled := c.Fault();
    if r.Err? || cancelled {
      return false;
    }
    c.LastState();
    ok := CordonNext(c, r.value, surge);
    ReplaceWhole(ok, k, old(c.pool), t, p, c.trace, c.pool, r.value, surge, c.spot);
  }

  /** When nothing but terminations has happened. */
  lemma ReplaceHalf(k: nat, p: Pool, t: seq<Step>, q: Pool, surge: nat, spot: bool)
    requires Orderly(t, k, surge, spot) && NoScale(t, k) && NoCordon(t, k)
    ensures Replaced(false, k, p, t, q, surge, spot)
  {
    EachWeaken(t, k, surge);
    PlainPart(t, k, surge);
  }

  lemma ReplaceWhole(ok: bool, k: nat, start: Pool, t: seq<Step>, p: Pool, u: seq<Step>, q: Pool,
                     pool: Snapshot, surge: nat, spot: bool)
    requires k < |t| && t <= u && t[|t| - 1].after == p
    requires Orderly(t, k, surge, spot) && NoScale(t, k) && NoCordon(t, k) && Orderly(u, |t|, surge, spot)
    requires Old(p) <= Uncordoned(start) && Old(q) <= Old(p)
    requires !spot && CordonBound(start, surge) ==> Cordoned(p) == {}
    requires !spot && Cordoned(p) == {} ==> RestrainedFrom(u, |t|, surge)
    requires OwedFrom(u, |t|, surge) == |Selection(pool, surge).unmatched|
    requires !spot ==> Raises(u, |t|, |Selection(pool, surge).unmatched|, ok)
    requires ok && (spot || VolumeFree(p)) ==> |Uncordoned(q)| <= Max(0, |Old(p)| - surge)
    ensures Replaced(ok, k, start, u, q, surge, spot)
  {
    ReplaceRaises(ok, k, t, u, |Selection(pool, surge).unmatched|, surge, spot);
    EachWeaken(t, k, surge);
    ReplaceJoin(k, t, u, surge, spot);
    if ok && (spot || VolumeFreeFrom(u, k)) {
      ReplaceCounts(k, start, t, p, u, q, surge, spot);
    }
  }

  lemma ReplaceCounts(k: nat, start: Pool, t: seq<Step>, p: Pool, u: seq<Step>, q: Pool, surge: nat, spot: bool)
    requires k < |t| && t <= u && t[|t| - 1].after == p && Old(p) <= Uncordoned(start)
    requires spot || VolumeFreeFrom(u, k)
    requires spot || VolumeFree(p) ==> |Uncordoned(q)| <= Max(0, |Old(p)| - surge)
    ensures |Uncordoned(q)| <= Max(0, |Uncordoned(start)| - surge)
  {
    SubsetSize(Old(p), Uncordoned(start));
    if VolumeFreeFrom(u, k) {
      At(u, k, IsVolumeFree(), |t| - 1);
      assert u[|t| - 1] == t[|t| - 1];
    }
  }

  lemma ReplaceRaises(ok: bool, k: nat, t: seq<Step>, u: seq<Step>, unmatched: nat, surge: nat, spot: bool)
    requires k <= |t| && t <= u && NoScale(t, k) && NoCordon(t, k)
    requires OwedFrom(u, |t|, surge) == unmatched && (!spot ==> Raises(u, |t|, unmatched, ok))
    ensures !spot ==> Raises(u, k, OwedFrom(u, k, surge), ok)
  {
    PlainPart(t, k, surge);
    IncreaseJoin(t, u, k, surge);
  }

  /** Without scaling and choices nothing is raised or owed. */
  lemma PlainPart(t: seq<Step>, k: nat, surge: nat)
    requires NoScale(t, k) && NoCordon(t, k)
    ensures RaisedFrom(t, k) == 0 && OwedFrom(t, k, surge) == 0
  {
    NoRaise(t, k);
    EachImplies(t, k, IsNoCordon(), IsNoChoice());
    NoChoiceOwes(t, k, surge);
  }

  lemma ReplaceJoin(k: nat, t: seq<Step>, u: seq<Step>, surge: nat, spot: bool)
    requires k < |t| && t <= u
    requires Orderly(t, k, surge, spot) && RestrainedFrom(t, k, surge)
    requires Orderly(u, |t|, surge, spot)
    ensures Orderly(u, k, surge, spot)
    ensures RestrainedFrom(u, |t|, surge) ==> RestrainedFrom(u, k, surge)
  {
    OrderlyJoin(t, u, k, surge, spot);
    if RestrainedFrom(u, |t|, surge) {
      EachJoin(t, u, k, IsRestrained(surge));
    }
  }

  lemma EachWeaken(t: seq<Step>, k: nat, surge: nat)
    requires NoCordon(t, k)
    ensures RestrainedFrom(t, k, surge)
  {
    EachImplies(t, k, IsNoCordon(), IsRestrained(surge));
  }

  /******* The update *******/

  datatype PassOutcome = Done | Broken | Again

  /** What a pass from p to q, steps k up to the end of t, has done. `m` is the length of
      the trace when the scale-out of the pass had finished, 0 if it did not. */
  ghost predicate PassFacts(outcome: PassOutcome, m: nat, k: nat, p: Pool, t: seq<Step>, q: Pool,
                            surge: nat, spot: bool) {
    && Orderly(t, k, surge, spot)
    && (!spot && CordonBound(p, surge) ==> RestrainedFrom(t, k, surge))
    && (m == 0 ==> ScalesOut(t, k) && (!spot ==> HalfScaledOut(p, q, surge)))
    && (m > 0 ==> k < m <= |t| && ScalesOut(t[..m], k) && (!spot ==> ScaledOutPool(p, t[m - 1].after, surge)))
    && (m > 0 && !spot ==> Raises(t, m, OwedFrom(t, m, surge), !outcome.Broken?))
    && (!outcome.Broken? ==> m > 0)
    && (outcome.Done? ==> m == |t| && Old(q) == {})
    && (outcome.Again? ==> Old(p) != {} && Old(q) <= Uncordoned(p))
    && (outcome.Again? && (spot || VolumeFreeFrom(t, k)) ==> |Uncordoned(q)| <= Max(0, |Uncordoned(p)| - surge))
  }

  /** What the scale-out at the start of a pass leaves. */
  ghost predicate ScaledOutPool(p: Pool, q: Pool, surge: nat) {
    && WellFormed(q) && Settled(q)
    && Old(q) == Old(p)
    && Cordoned(q) == Cordoned(p)
    && q.desired == ScaledOut(|Old(p)|, p.desired, surge)
  }

  /** What a scale-out leaves that did not finish: it has not gone further than it should. */
  ghost predicate HalfScaledOut(p: Pool, q: Pool, surge: nat) {
    && Old(q) == Old(p)
    && Cordoned(q) == Cordoned(p)
    && p.desired <= q.desired <= ScaledOut(|Old(p)|, p.desired, surge)
  }

  /** One pass of the loop of `Update`. */
  method Pass(c: Cloud, surge: nat) returns (outcome: PassOutcome, ghost m: nat)
    requires c.Valid() && surge >= 1
    modifies c
    ensures c.Valid() && old(c.trace) <= c.trace
    ensures PassFacts(outcome, m, |old(c.trace)|, old(c.pool), c.trace, c.pool, surge, c.spot)
    ensures c.reliable && !c.spot && outcome.Broken? ==> TimedOut(c.trace, |old(c.trace)|)
  {
    var r := BeginPass(c, surge);
    c.LastState();
    outcome, m := FinishPass(c, r, surge, old(c.pool), |old(c.trace)|);
  }

  /** Waits or scales until there are `surge` new nodes. */
  method BeginPass(c: Cloud, surge: nat) returns (r: Result<Snapshot>)
    requires c.Valid()
    modifies c
    ensures c.Valid() && old(c.trace) <= c.trace && Begun(|old(c.trace)|, old(c.pool), c.trace, c.pool, surge, c.spot)
    ensures r.Ok? ==> Lists(r.value, c.pool) && |c.trace| > |old(c.trace)|
    ensures r.Ok? && !c.spot ==> ScaledOutPool(old(c.pool), c.pool, surge)
    ensures c.reliable && r.Err? ==> TimedOut(c.trace, |old(c.trace)|)
  {
    r := ScaleOutAndWaitForNodesToBeReady(c, if c.spot then 0 else surge);
    ScalesOutOrderly(c.trace, |old(c.trace)|, surge, c.spot);
    EachWeaken(c.trace, |old(c.trace)|, surge);
    GrownEvolves(old(c.pool), c.pool, c.spot);
    OldShrinks(old(c.pool), c.pool);
    if !c.spot {
      GrownKeeps(old(c.pool), c.pool);
    }
  }

  /** What the first part of a pass has done. */
  ghost predicate Begun(k: nat, p: Pool, t: seq<Step>, q: Pool, surge: nat, spot: bool) {
    && ScalesOut(t, k) && Orderly(t, k, surge, spot) && RestrainedFrom(t, k, surge)
    && Uncordoned(q) <= Uncordoned(p) && Old(q) <= Old(p)
    && (!spot ==> HalfScaledOut(p, q, surge))
  }

  lemma PassBroken(k: nat, p: Pool, t: seq<Step>, q: Pool, surge: nat, spot: bool)
    requires Begun(k, p, t, q, surge, spot)
    ensures PassFacts(Broken, 0, k, p, t, q, surge, spot)
  {
  }

  /** The part of a pass after the scale-out, seen from the start of the pass. */
  method FinishPass(c: Cloud, r: Result<Snapshot>, surge: nat, ghost start: Pool, ghost k: nat)
    returns (outcome: PassOutcome, ghost m: nat)
    requires c.Valid() && surge >= 1 && (r.Ok? ==> Lists(r.value, c.pool) && k < |c.trace|)
    requires Begun(k, start, c.trace, c.pool, surge, c.spot) && k <= |c.trace|
    requires r.Ok? && !c.spot ==> ScaledOutPool(start, c.pool, surge)
    requires c.reliable && r.Err? ==> TimedOut(c.trace, k)
    modifies c
    ensures c.Valid() && old(c.trace) <= c.trace
    ensures PassFacts(outcome, m, k, start, c.trace, c.pool, surge, c.spot)
    ensures c.reliable && !c.spot && outcome.Broken? ==> TimedOut(c.trace, k)
  {
    if r.Err? {
      PassBroken(k, start, c.trace, c.pool, surge, c.spot);
      return Broken, 0;
    }
    m := |c.trace|;
    c.LastState();
    var done := IsUpdateDone(r.value, c.pool);
    var interrupted := c.Fault();
    if interrupted || done {
      outcome := if interrupted then Broken else Done;
      PassStopped(outcome, k, start, c.trace, c.pool, surge, c.spot);
      return;
    }
    var ok := ReplaceNodes(c, r.value, surge);
    outcome := if ok then Again else Broken;
    PassFinished(ok, k, start, old(c.trace), old(c.pool), c.trace, c.pool, surge, c.spot);
  }

  method IsUpdateDone(pool: Snapshot, ghost p: Pool) returns (done: bool)
    requires Lists(pool, p)
    ensures done <==> Old(p) == {}
  {
    var oldNodes, _ := SplitOldNewNodes(pool);
    SnapshotOld(pool, p);
    done := |oldNodes| == 0;
  }

  lemma PassStopped(outcome: PassOutcome, k: nat, p: Pool, t: seq<Step>, q: Pool, surge: nat, spot: bool)
    requires k < |t| && t[|t| - 1].after == q && Begun(k, p, t, q, surge, spot)
    requires (!spot ==> ScaledOutPool(p, q, surge))
    requires !outcome.Again? && (outcome.Done? ==> Old(q) == {})
    ensures PassFacts(outcome, |t|, k, p, t, q, surge, spot)
  {
    assert t[..|t|] == t;
  }

  lemma PassFinished(ok: bool, k: nat, p: Pool, t: seq<Step>, mid: Pool, u: seq<Step>, q: Pool, surge: nat, spot: bool)
    requires k < |t| && t <= u && t[|t| - 1].after == mid && Begun(k, p, t, mid, surge, spot)
    requires (!spot ==> ScaledOutPool(p, mid, surge)) && (ok ==> Old(mid) != {})
    requires Replaced(ok, |t|, mid, u, q, surge, spot)
    ensures PassFacts(if ok then Again else Broken, |t|, k, p, u, q, surge, spot)
  {
    SubsetSize(Uncordoned(mid), Uncordoned(p));
    PassJoin(t, u, k, surge, spot);
    assert u[..|t|] == t && u[|t| - 1] == t[|t| - 1];
  }

  lemma PassJoin(t: seq<Step>, u: seq<Step>, k: nat, surge: nat, spot: bool)
    requires k <= |t| && t <= u && Orderly(t, k, surge, spot) && Orderly(u, |t|, surge, spot)
    ensures Orderly(u, k, surge, spot)
    ensures RestrainedFrom(t, k, surge) && RestrainedFrom(u, |t|, surge) ==> RestrainedFrom(u, k, surge)
    ensures VolumeFreeFrom(u, k) ==> VolumeFreeFrom(u, |t|) && VolumeFreeFrom(t, k)
  {
    OrderlyJoin(t, u, k, surge, spot);
    if RestrainedFrom(t, k, surge) && RestrainedFrom(u, |t|, surge) {
      EachJoin(t, u, k, IsRestrained(surge));
    }
  }
}
