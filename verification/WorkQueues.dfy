/** The controller's work queue: what one critical section of `ClusterList` does,
    and what holds in every interleaving of a refresher and any number of workers.

    Every method of `ClusterList` runs under its lock, so a run of the system is a
    sequence of whole method calls. */
module WorkQueues {
  import opened Strings
  import opened Options
  import opened ClusterVersions

  const NONE := 0
  const NORMAL := 1
  const DECOMMISSION_REQUESTED := 2
  const ALREADY_UPDATING := 3

  const STATUS_REQUESTED := "requested"
  const STATUS_READY := "ready"
  const STATUS_DECOMMISSION_REQUESTED := "decommission-requested"
  const STATUS_DECOMMISSIONED := "decommissioned"
  const UPDATE_BLOCK := "cluster_update_block"

  datatype EntryState = Idle | Processing | Processed

  /** The cancel function that an entry carries: none, or that of a worker's context. */
  datatype Cancel = NoCancel | CancelOf(ctx: nat)

  datatype Entry = Entry(
    lastProcessed: int, state: EntryState, cancel: Cancel, priority: nat,
    cluster: Cluster, current: ClusterVersion, next: Option<ClusterVersion>)

  /** What the channel configuration answers for a cluster, if anything, and the
      hash function of cluster versions. */
  datatype Source = Source(resolve: Cluster -> Option<string>, sha: string -> string)

  predicate UpdateBlocked(c: Cluster) {
    UPDATE_BLOCK in c.configItems
  }

  /** Higher priorities are always selected first; `NONE` means nothing to do. */
  function UpdatePriority(e: Entry): nat {
    if UpdateBlocked(e.cluster) then NONE
    else if e.next.None? then NORMAL
    else if e.cluster.lifecycle == STATUS_DECOMMISSION_REQUESTED then DECOMMISSION_REQUESTED
    else if e.cluster.status.nextVersion != "" && e.cluster.status.nextVersion != e.cluster.status.currentVersion
    then ALREADY_UPDATING
    else if e.next.value != e.current then NORMAL
    else NONE
  }

  /******* Refreshing *******/

  predicate Listed(c: Cluster, allowed: string -> bool) {
    c.lifecycle != STATUS_DECOMMISSIONED && allowed(c.account)
  }

  ghost function NextVersion(c: Cluster, src: Source): Option<ClusterVersion> {
    match src.resolve(c)
    case None => None
    case Some(config) => Some(VersionOf(c, config, src.sha))
  }

  /** One cluster from the registry: an entry that a worker holds is left alone, any
      other one gets the new data and becomes idle. */
  ghost function Upserted(m: map<string, Entry>, c: Cluster, src: Source, allowed: string -> bool): map<string, Entry> {
    if !Listed(c, allowed) then m
    else if c.id !in m then
      m[c.id := Entry(0, Idle, NoCancel, 0, c, ParseVersion(c.status.currentVersion), NextVersion(c, src))]
    else if m[c.id].state.Processing? then m
    else
      var current := ParseVersion(c.status.currentVersion);
      m[c.id := m[c.id].(state := Idle, cluster := c, current := current, next := NextVersion(c, src))]
  }

  ghost function UpsertedAll(m: map<string, Entry>, cs: seq<Cluster>, src: Source,
                             allowed: string -> bool): map<string, Entry> {
    if cs == [] then m else Upserted(UpsertedAll(m, cs[..|cs| - 1], src, allowed), cs[|cs| - 1], src, allowed)
  }

  ghost function ListedIds(cs: seq<Cluster>, allowed: string -> bool): set<string> {
    set c | c in cs && Listed(c, allowed) :: c.id
  }

  ghost function Pruned(m: map<string, Entry>, ids: set<string>): map<string, Entry> {
    map id | id in m && (m[id].state.Processing? || id in ids) :: m[id]
  }

  function Prioritised(e: Entry): Entry {
    if e.state.Idle? then e.(priority := UpdatePriority(e)) else e
  }

  ghost function RefreshedClusters(m: map<string, Entry>, cs: seq<Cluster>, src: Source,
                                   allowed: string -> bool): map<string, Entry> {
    var kept := Pruned(UpsertedAll(m, cs, src, allowed), ListedIds(cs, allowed));
    map id | id in kept :: Prioritised(kept[id])
  }

  /** The cancel functions that a refresh calls: those of blocked clusters in progress. */
  ghost function Aborts(m: map<string, Entry>, cs: seq<Cluster>, allowed: string -> bool): set<Cancel> {
    set c | c in cs && Listed(c, allowed) && UpdateBlocked(c) && c.id in m && m[c.id].state.Processing? ::
      m[c.id].cancel
  }

  /******* Pending clusters *******/

  /** a may be selected before b. */
  predicate NotAfter(a: Entry, b: Entry) {
    a.priority > b.priority || (a.priority == b.priority && a.lastProcessed <= b.lastProcessed)
  }

  ghost predicate Ordered(m: map<string, Entry>, ids: seq<string>)
    requires forall id :: id in ids ==> id in m
  {
    forall i, j :: 0 <= i < j < |ids| ==> NotAfter(m[ids[i]], m[ids[j]])
  }

  ghost predicate Selectable(m: map<string, Entry>, id: string) {
    id in m && m[id].state.Idle? && m[id].priority != NONE
  }

  /** The queue after a refresh: every cluster that needs something, in order. */
  ghost predicate PendingFor(m: map<string, Entry>, pending: seq<string>) {
    && Distinct(pending)
    && (forall id :: id in pending <==> Selectable(m, id))
    && Ordered(m, pending)
  }

  /******* The system *******/

  datatype Queue = Queue(clusters: map<string, Entry>, pending: seq<string>)

  datatype Holder = Holder(id: string, ctx: nat)

  datatype System = System(queue: Queue, held: map<nat, Holder>, cancelled: set<Cancel>, clock: int)

  datatype Action =
    | Refresh(available: seq<Cluster>, source: Source)
    | Select(worker: nat, ctx: nat)
    | Work(worker: nat, cluster: Cluster)
    | Finish(worker: nat, now: int)

  /** `UpdateAvailable`. */
  ghost predicate RefreshStep(q: Queue, r: Queue, cs: seq<Cluster>, src: Source, allowed: string -> bool) {
    r.clusters == RefreshedClusters(q.clusters, cs, src, allowed) && PendingFor(r.clusters, r.pending)
  }

  /** `SelectNext`: takes the first pending cluster, if there is one. */
  predicate SelectStep(q: Queue, r: Queue, ctx: nat) {
    if q.pending == [] then r == q else
      var id := q.pending[0];
      && id in q.clusters
      && r.clusters == q.clusters[id := q.clusters[id].(state := Processing, cancel := CancelOf(ctx))]
      && r.pending == q.pending[1..]
  }

  /** A worker writes to the cluster that it holds (its status, not its ID). */
  predicate WorkStep(q: Queue, r: Queue, cluster: Cluster) {
    && r.pending == q.pending
    && cluster.id in q.clusters
    && r.clusters == q.clusters[cluster.id := q.clusters[cluster.id].(cluster := cluster)]
  }

  /** `ClusterProcessed`. */
  predicate FinishStep(q: Queue, r: Queue, id: string, now: int) {
    && r.pending == q.pending
    && r.clusters ==
       if id in q.clusters
       then q.clusters[id := q.clusters[id].(state := Processed, cancel := NoCancel, lastProcessed := now)]
       else q.clusters
  }

  ghost predicate Step(s: System, a: Action, t: System, allowed: string -> bool) {
    match a
    case Refresh(cs, src) =>
      && RefreshStep(s.queue, t.queue, cs, src, allowed)
      && t.cancelled == s.cancelled + Aborts(s.queue.clusters, cs, allowed)
      && t.held == s.held && t.clock == s.clock
    case Select(w, ctx) =>
      && w !in s.held
      && SelectStep(s.queue, t.queue, ctx)
      && t.held == (if s.queue.pending == [] then s.held else s.held[w := Holder(s.queue.pending[0], ctx)])
      && t.cancelled == s.cancelled && t.clock == s.clock
    case Work(w, cluster) =>
      && w in s.held && s.held[w].id == cluster.id
      && WorkStep(s.queue, t.queue, cluster)
      && t.held == s.held && t.cancelled == s.cancelled && t.clock == s.clock
    case Finish(w, now) =>
      && w in s.held
      && FinishStep(s.queue, t.queue, s.held[w].id, now)
      && t.held == s.held - {w}
      && t.cancelled == s.cancelled && t.clock == now
  }

  ghost predicate Run(states: seq<System>, actions: seq<Action>, allowed: string -> bool) {
    && |states| == |actions| + 1
    && forall i {:trigger actions[i]} :: 0 <= i < |actions| ==> Step(states[i], actions[i], states[i + 1], allowed)
  }

  /** The cluster that a step hands out, if it does. */
  ghost predicate Takes(s: System, a: Action, id: string) {
    a.Select? && s.queue.pending != [] && s.queue.pending[0] == id
  }

  /******* Queue safety *******/

  ghost predicate FiledById(m: map<string, Entry>) {
    forall id :: id in m ==> m[id].cluster.id == id
  }

  /** Pending entries are distinct, idle and in the map. */
  ghost predicate PendingOk(q: Queue) {
    Distinct(q.pending) && forall id :: id in q.pending ==> Selectable(q.clusters, id)
  }

  /** Exactly the entries in processing are held, each by one worker and with that
      worker's cancel function. */
  ghost predicate HeldOk(m: map<string, Entry>, held: map<nat, Holder>) {
    && (forall w :: w in held ==> Holds(m, held[w]))
    && (forall w, v :: w in held && v in held && held[w].id == held[v].id ==> w == v)
    && (forall id :: id in m && m[id].state.Processing? ==> exists w :: w in held && held[w].id == id)
  }

  ghost predicate Holds(m: map<string, Entry>, h: Holder) {
    h.id in m && m[h.id].state.Processing? && m[h.id].cancel == CancelOf(h.ctx)
  }

  ghost predicate Safe(s: System) {
    FiledById(s.queue.clusters) && PendingOk(s.queue) && HeldOk(s.queue.clusters, s.held)
  }

  ghost predicate Initial(s: System) {
    s.queue == Queue(map[], []) && s.held == map[]
  }

  lemma UpsertedKeeps(m: map<string, Entry>, c: Cluster, src: Source, allowed: string -> bool)
    requires FiledById(m)
    ensures FiledById(Upserted(m, c, src, allowed))
    ensures forall id :: id in m && m[id].state.Processing? ==>
      id in Upserted(m, c, src, allowed) && Upserted(m, c, src, allowed)[id] == m[id]
    ensures forall id :: id in Upserted(m, c, src, allowed) && Upserted(m, c, src, allowed)[id].state.Processing? ==>
      id in m && m[id].state.Processing?
  {
  }

  lemma {:induction false} UpsertedAllKeeps(m: map<string, Entry>, cs: seq<Cluster>, src: Source,
                                            allowed: string -> bool)
    requires FiledById(m)
    ensures FiledById(UpsertedAll(m, cs, src, allowed))
    ensures SameProcessing(m, UpsertedAll(m, cs, src, allowed))
  {
    if cs != [] {
      UpsertedAllKeeps(m, cs[..|cs| - 1], src, allowed);
      UpsertedKeeps(UpsertedAll(m, cs[..|cs| - 1], src, allowed), cs[|cs| - 1], src, allowed);
    }
  }

  /** The same entries are in processing, and they are unchanged. */
  ghost predicate SameProcessing(m: map<string, Entry>, n: map<string, Entry>) {
    && (forall id :: id in m && m[id].state.Processing? ==> id in n && n[id] == m[id])
    && (forall id :: id in n && n[id].state.Processing? ==> id in m && m[id].state.Processing?)
  }

  /** A refresh neither deletes an entry in processing nor touches its data. */
  lemma RefreshKeepsProcessing(m: map<string, Entry>, cs: seq<Cluster>, src: Source, allowed: string -> bool)
    requires FiledById(m)
    ensures FiledById(RefreshedClusters(m, cs, src, allowed))
    ensures SameProcessing(m, RefreshedClusters(m, cs, src, allowed))
  {
    UpsertedAllKeeps(m, cs, src, allowed);
  }

  lemma HeldAfterRefresh(m: map<string, Entry>, n: map<string, Entry>, held: map<nat, Holder>)
    requires HeldOk(m, held) && SameProcessing(m, n)
    ensures HeldOk(n, held)
  {
  }

  lemma HeldAfterSelect(m: map<string, Entry>, held: map<nat, Holder>, w: nat, id: string, ctx: nat)
    requires HeldOk(m, held) && id in m && m[id].state.Idle? && w !in held
    ensures HeldOk(m[id := m[id].(state := Processing, cancel := CancelOf(ctx))], held[w := Holder(id, ctx)])
  {
    var n := m[id := m[id].(state := Processing, cancel := CancelOf(ctx))];
    var h := held[w := Holder(id, ctx)];
    forall x | x in n && n[x].state.Processing? ensures exists v :: v in h && h[v].id == x {
      if x == id {
        assert w in h && h[w].id == id;
      } else {
        var v :| v in held && held[v].id == x;
        assert v in h && h[v].id == x;
      }
    }
  }

  lemma HeldAfterFinish(m: map<string, Entry>, held: map<nat, Holder>, w: nat, now: int)
    requires HeldOk(m, held) && w in held && held[w].id in m
    ensures var id := held[w].id;
      HeldOk(m[id := m[id].(state := Processed, cancel := NoCancel, lastProcessed := now)], held - {w})
  {
    var id := held[w].id;
    var n := m[id := m[id].(state := Processed, cancel := NoCancel, lastProcessed := now)];
    forall x | x in n && n[x].state.Processing? ensures exists v :: v in held - {w} && (held - {w})[v].id == x {
      var v :| v in held && held[v].id == x;
      assert v in held - {w};
    }
  }

  lemma SafeStep(s: System, a: Action, t: System, allowed: string -> bool)
    requires Safe(s) && Step(s, a, t, allowed)
    ensures Safe(t)
  {
    match a
    case Refresh(cs, src) =>
      RefreshKeepsProcessing(s.queue.clusters, cs, src, allowed);
      HeldAfterRefresh(s.queue.clusters, t.queue.clusters, s.held);
    case Select(w, ctx) => SafeSelect(s, w, ctx, t, allowed);
    case Work(w, cluster) => SafeWork(s, w, cluster, t, allowed);
    case Finish(w, now) => SafeFinish(s, w, now, t, allowed);
  }

  lemma SafeSelect(s: System, w: nat, ctx: nat, t: System, allowed: string -> bool)
    requires Safe(s) && Step(s, Select(w, ctx), t, allowed)
    ensures Safe(t)
  {
    if s.queue.pending != [] {
      var id := s.queue.pending[0];
      assert id in s.queue.pending && Selectable(s.queue.clusters, id);
      HeldAfterSelect(s.queue.clusters, s.held, w, id, ctx);
      PendingAfterTake(s.queue, t.queue, id);
    }
  }

  lemma SafeWork(s: System, w: nat, cluster: Cluster, t: System, allowed: string -> bool)
    requires Safe(s) && Step(s, Work(w, cluster), t, allowed)
    ensures Safe(t)
  {
    assert Holds(s.queue.clusters, s.held[w]);
    assert s.held[w].id !in s.queue.pending;
  }

  lemma SafeFinish(s: System, w: nat, now: int, t: System, allowed: string -> bool)
    requires Safe(s) && Step(s, Finish(w, now), t, allowed)
    ensures Safe(t)
  {
    assert Holds(s.queue.clusters, s.held[w]);
    HeldAfterFinish(s.queue.clusters, s.held, w, now);
    assert s.held[w].id !in s.queue.pending;
  }

  lemma PendingAfterTake(q: Queue, r: Queue, id: string)
    requires PendingOk(q) && q.pending != [] && q.pending[0] == id && r.pending == q.pending[1..]
    requires forall x :: x in q.clusters && x != id ==> x in r.clusters && r.clusters[x] == q.clusters[x]
    ensures PendingOk(r)
  {
    forall x | x in r.pending ensures Selectable(r.clusters, x) {
      assert x in q.pending;
    }
  }

  /** Queue safety: in every reachable state of every interleaving no cluster is held
      twice, what is held is exactly what is in processing, and what is pending is
      idle and listed once. */
  lemma {:induction false} AlwaysSafe(states: seq<System>, actions: seq<Action>, allowed: string -> bool, i: nat)
    requires Run(states, actions, allowed) && Initial(states[0]) && i < |states|
    ensures Safe(states[i])
  {
    if i > 0 {
      AlwaysSafe(states, actions, allowed, i - 1);
      assert Step(states[i - 1], actions[i - 1], states[i], allowed);
      SafeStep(states[i - 1], actions[i - 1], states[i], allowed);
    }
  }

  /** What a worker holds does not change under it, whatever others do. */
  lemma HeldUntouched(s: System, a: Action, t: System, allowed: string -> bool, w: nat)
    requires Safe(s) && Step(s, a, t, allowed) && w in s.held && w in t.held
    requires a.Work? ==> a.worker != w
    ensures s.held[w].id in t.queue.clusters
    ensures t.queue.clusters[s.held[w].id] == s.queue.clusters[s.held[w].id]
  {
    assert Holds(s.queue.clusters, s.held[w]);
    match a
    case Refresh(cs, src) => RefreshKeepsProcessing(s.queue.clusters, cs, src, allowed);
    case Select(_, _) => assert s.queue.pending != [] ==> s.queue.pending[0] in s.queue.pending;
    case Work(_, _) =>
    case Finish(_, _) =>
  }

  /** An abort reaches the context of the worker that holds the blocked cluster, and
      only such contexts are cancelled. */
  lemma AbortsReachHolders(s: System, cs: seq<Cluster>, src: Source, t: System, allowed: string -> bool, w: nat)
    requires Safe(s) && Step(s, Refresh(cs, src), t, allowed) && w in s.held
    ensures (exists c :: c in cs && Listed(c, allowed) && UpdateBlocked(c) && c.id == s.held[w].id) ==>
      CancelOf(s.held[w].ctx) in t.cancelled
    ensures forall x :: x in t.cancelled - s.cancelled ==> exists v :: v in s.held && x == CancelOf(s.held[v].ctx)
  {
    assert Holds(s.queue.clusters, s.held[w]);
    forall x | x in t.cancelled - s.cancelled ensures exists v :: v in s.held && x == CancelOf(s.held[v].ctx) {
      var c :| c in cs && c.id in s.queue.clusters && s.queue.clusters[c.id].state.Processing?
        && x == s.queue.clusters[c.id].cancel;
      var v :| v in s.held && s.held[v].id == c.id;
      assert Holds(s.queue.clusters, s.held[v]);
    }
  }

  /** Between two refreshes a cluster is handed out at most once. */
  lemma {:induction false} OncePerRefresh(states: seq<System>, actions: seq<Action>,
                                          allowed: string -> bool, i: nat, j: nat, id: string)
    requires Run(states, actions, allowed) && i < j < |actions|
    requires Safe(states[i]) && Takes(states[i], actions[i], id)
    requires forall k :: i < k < j ==> !actions[k].Refresh?
    ensures !Takes(states[j], actions[j], id)
  {
    NotIdleUntilRefresh(states, actions, allowed, i, j, id);
    assert states[j].queue.pending != [] ==> states[j].queue.pending[0] in states[j].queue.pending;
  }

  lemma {:induction false} NotIdleUntilRefresh(states: seq<System>, actions: seq<Action>,
                                               allowed: string -> bool, i: nat, j: nat, id: string)
    requires Run(states, actions, allowed) && i < j < |actions|
    requires Safe(states[i]) && Takes(states[i], actions[i], id)
    requires forall k :: i < k < j ==> !actions[k].Refresh?
    ensures Safe(states[j]) && id in states[j].queue.clusters && !states[j].queue.clusters[id].state.Idle?
  {
    var k := j - 1;
    assert Step(states[k], actions[k], states[j], allowed);
    if k > i {
      NotIdleUntilRefresh(states, actions, allowed, i, k, id);
    }
    SafeStep(states[k], actions[k], states[j], allowed);
    StaysBusy(states[k], actions[k], states[j], allowed, id);
  }

  lemma StaysBusy(s: System, a: Action, t: System, allowed: string -> bool, id: string)
    requires Safe(s) && Step(s, a, t, allowed) && !a.Refresh?
    requires Takes(s, a, id) || (id in s.queue.clusters && !s.queue.clusters[id].state.Idle?)
    ensures id in t.queue.clusters && !t.queue.clusters[id].state.Idle?
  {
  }

  /******* What a refresh decides *******/

  /** The entry of a listed cluster that nobody holds, after a refresh. */
  lemma {:induction false} Relisted(m: map<string, Entry>, cs: seq<Cluster>, src: Source,
                                    allowed: string -> bool, c: Cluster)
    requires c in cs && Listed(c, allowed) && (forall d :: d in cs && d.id == c.id ==> d == c)
    requires c.id in m ==> !m[c.id].state.Processing?
    ensures c.id in RefreshedClusters(m, cs, src, allowed)
    ensures var e := RefreshedClusters(m, cs, src, allowed)[c.id];
      && UpToDate(e, c, src) && e.priority == PriorityOf(c, src)
  {
    RelistedAll(m, cs, src, allowed, c);
    var n, ids := UpsertedAll(m, cs, src, allowed), ListedIds(cs, allowed);
    assert c.id in ids;
    assert Pruned(n, ids)[c.id] == n[c.id];
    PrioritisedFresh(n[c.id], c, src);
  }

  lemma PrioritisedFresh(e: Entry, c: Cluster, src: Source)
    requires UpToDate(e, c, src)
    ensures UpToDate(Prioritised(e), c, src) && Prioritised(e).priority == PriorityOf(c, src)
  {
  }

  ghost predicate UpToDate(e: Entry, c: Cluster, src: Source) {
    e.state.Idle? && e.cluster == c && e.current == ParseVersion(c.status.currentVersion)
      && e.next == NextVersion(c, src)
  }

  ghost function PriorityOf(c: Cluster, src: Source): nat {
    UpdatePriority(Entry(0, Idle, NoCancel, 0, c, ParseVersion(c.status.currentVersion), NextVersion(c, src)))
  }

  lemma {:induction false} RelistedAll(m: map<string, Entry>, cs: seq<Cluster>, src: Source,
                                       allowed: string -> bool, c: Cluster)
    requires Listed(c, allowed) && (forall d :: d in cs && d.id == c.id ==> d == c)
    requires c.id in m ==> !m[c.id].state.Processing?
    ensures var n := UpsertedAll(m, cs, src, allowed);
      && (c.id in n ==> !n[c.id].state.Processing?)
      && (c in cs ==> c.id in n && UpToDate(n[c.id], c, src))
  {
    if cs != [] {
      RelistedAll(m, cs[..|cs| - 1], src, allowed, c);
      assert cs == cs[..|cs| - 1] + [cs[|cs| - 1]];
    }
  }

  /** Every cluster is listed once. */
  ghost predicate OncePerId(cs: seq<Cluster>) {
    forall c, d :: c in cs && d in cs && c.id == d.id ==> c == d
  }

  /** A cluster that the refresh can do something about: neither decommissioned nor of an
      account that is filtered out, and not in the hands of a worker. */
  ghost predicate Up(q: Queue, cs: seq<Cluster>, allowed: string -> bool, c: Cluster) {
    && c in cs && c.lifecycle != "decommissioned" && allowed(c.account)
    && (c.id in q.clusters ==> !q.clusters[c.id].state.Processing?)
  }

  /** Another update was begun, and not finished. */
  ghost predicate Interrupted(c: Cluster) {
    c.status.nextVersion != "" && c.status.nextVersion != c.status.currentVersion
  }

  ghost predicate Resuming(c: Cluster, src: Source) {
    NextVersion(c, src).Some? && c.lifecycle != "decommission-requested" && Interrupted(c)
  }

  ghost predicate Leaving(c: Cluster, src: Source) {
    NextVersion(c, src).Some? && c.lifecycle == "decommission-requested"
  }

  /** When a cluster is pending: it is not blocked, and either its configuration cannot be
      determined, or it is to be decommissioned, or an update was interrupted, or its version
      has changed. */
  lemma PendingIff(q: Queue, r: Queue, cs: seq<Cluster>, src: Source, allowed: string -> bool, c: Cluster)
    requires RefreshStep(q, r, cs, src, allowed) && OncePerId(cs) && Up(q, cs, allowed, c)
    ensures c.id in r.pending <==>
      && "cluster_update_block" !in c.configItems
      && var next := NextVersion(c, src);
        || next.None?
        || c.lifecycle == "decommission-requested"
        || Interrupted(c)
        || next.value != ParseVersion(c.status.currentVersion)
  {
    Relisted(q.clusters, cs, src, allowed, c);
    assert c.id in r.pending <==> Selectable(r.clusters, c.id);
  }

  /** In what order: interrupted updates first, then decommissioning, then everything else;
      and among equals those that have not been processed for the longest time. */
  ghost predicate NotLessUrgent(c: Cluster, d: Cluster, src: Source) {
    (Resuming(d, src) ==> Resuming(c, src)) && (Leaving(d, src) ==> Resuming(c, src) || Leaving(c, src))
  }

  ghost predicate AsUrgent(c: Cluster, d: Cluster, src: Source) {
    (Resuming(c, src) <==> Resuming(d, src)) && (Leaving(c, src) <==> Leaving(d, src))
  }

  lemma PendingByUrgency(q: Queue, r: Queue, cs: seq<Cluster>, src: Source, allowed: string -> bool, c: Cluster,
                         d: Cluster)
    requires RefreshStep(q, r, cs, src, allowed) && OncePerId(cs)
    requires Up(q, cs, allowed, c) && Up(q, cs, allowed, d) && Precedes(r.pending, c.id, d.id)
    ensures NotLessUrgent(c, d, src)
    ensures c.id in r.clusters && d.id in r.clusters
    ensures AsUrgent(c, d, src) ==> r.clusters[c.id].lastProcessed <= r.clusters[d.id].lastProcessed
  {
    Relisted(q.clusters, cs, src, allowed, c);
    Relisted(q.clusters, cs, src, allowed, d);
    PrecedesOrdered(r.clusters, r.pending, c.id, d.id);
    assert r.clusters[c.id].priority == PriorityOf(c, src) && r.clusters[d.id].priority == PriorityOf(d, src);
    PriorityByUrgency(c, d, src);
  }

  lemma PrecedesOrdered(m: map<string, Entry>, pending: seq<string>, a: string, b: string)
    requires PendingFor(m, pending) && Precedes(pending, a, b)
    ensures Selectable(m, a) && Selectable(m, b) && NotAfter(m[a], m[b])
  {
    var i, j :| 0 <= i < j < |pending| && pending[i] == a && pending[j] == b;
    OrderAt(m, pending, i, j);
    assert pending[i] in pending && pending[j] in pending;
  }

  lemma PriorityByUrgency(c: Cluster, d: Cluster, src: Source)
    requires PriorityOf(c, src) != NONE && PriorityOf(d, src) != NONE
    ensures PriorityOf(c, src) >= PriorityOf(d, src) ==> NotLessUrgent(c, d, src)
    ensures AsUrgent(c, d, src) ==> PriorityOf(c, src) == PriorityOf(d, src)
  {
  }

  /** Nothing else stays in the list: what is not in the hands of a worker is listed. */
  lemma OnlyListedStay(q: Queue, r: Queue, cs: seq<Cluster>, src: Source, allowed: string -> bool, id: string)
    requires RefreshStep(q, r, cs, src, allowed) && id in r.clusters && !r.clusters[id].state.Processing?
    ensures exists c :: c in cs && c.id == id && c.lifecycle != "decommissioned" && allowed(c.account)
  {
    var ids := ListedIds(cs, allowed);
    assert id in ids;
  }

  /** So a cluster that is decommissioned leaves the queue. */
  lemma DecommissionedLeaves(q: Queue, r: Queue, cs: seq<Cluster>, src: Source, allowed: string -> bool, c: Cluster)
    requires RefreshStep(q, r, cs, src, allowed) && c.lifecycle == "decommissioned"
    requires forall d :: d in cs && d.id == c.id ==> d == c
    requires FiledById(q.clusters) && (c.id in q.clusters ==> !q.clusters[c.id].state.Processing?)
    ensures c.id !in r.clusters && c.id !in r.pending
  {
    RefreshKeepsProcessing(q.clusters, cs, src, allowed);
    if c.id in r.clusters {
      OnlyListedStay(q, r, cs, src, allowed, c.id);
    }
    assert c.id in r.pending ==> Selectable(r.clusters, c.id);
  }

  /******* Bounded overtaking *******/

  /** B waits, A was taken at a time when the clock showed at most `since`. */
  ghost predicate Waits(s: System, a: string, b: string, since: int) {
    var m := s.queue.clusters;
    && since <= s.clock
    && b in m && m[b].state.Idle? && m[b].lastProcessed <= since
    && a in m && (m[a].state.Processing? || m[a].lastProcessed > since)
    && (a in s.queue.pending ==> Precedes(s.queue.pending, b, a))
  }

  ghost predicate Precedes(ids: seq<string>, b: string, a: string) {
    exists x, y :: 0 <= x < y < |ids| && ids[x] == b && ids[y] == a
  }

  lemma OrderAt(m: map<string, Entry>, pending: seq<string>, i: nat, j: nat)
    requires PendingFor(m, pending) && i < j < |pending|
    ensures pending[i] in m && pending[j] in m && NotAfter(m[pending[i]], m[pending[j]])
  {
    assert pending[i] in pending && pending[j] in pending;
  }

  /** What must not come after a comes before it. */
  lemma PendingOrder(m: map<string, Entry>, pending: seq<string>, b: string, a: string)
    requires PendingFor(m, pending) && a in pending && b in pending && !NotAfter(m[a], m[b])
    ensures Precedes(pending, b, a)
  {
    var x :| 0 <= x < |pending| && pending[x] == b;
    var y :| 0 <= y < |pending| && pending[y] == a;
    if y < x {
      OrderAt(m, pending, y, x);
    }
    assert x != y;
  }

  /** A refresh at which B is idle, at least as urgent as A, and A is still listed. */
  ghost predicate Fair(t: System, a: string, b: string) {
    var m := t.queue.clusters;
    && a in m && b in m && m[b].state.Idle?
    && (m[a].state.Idle? ==> m[a].priority <= m[b].priority)
  }

  lemma LastProcessedKept(m: map<string, Entry>, cs: seq<Cluster>, src: Source, allowed: string -> bool, id: string)
    requires FiledById(m) && id in m && id in RefreshedClusters(m, cs, src, allowed)
    ensures RefreshedClusters(m, cs, src, allowed)[id].lastProcessed == m[id].lastProcessed
  {
    UpsertedLast(m, cs, src, allowed, id);
  }

  lemma {:induction false} UpsertedLast(m: map<string, Entry>, cs: seq<Cluster>, src: Source,
                                        allowed: string -> bool, id: string)
    requires id in m
    ensures id in UpsertedAll(m, cs, src, allowed)
    ensures UpsertedAll(m, cs, src, allowed)[id].lastProcessed == m[id].lastProcessed
  {
    if cs != [] {
      UpsertedLast(m, cs[..|cs| - 1], src, allowed, id);
    }
  }

  lemma WaitsRefresh(s: System, cs: seq<Cluster>, src: Source, t: System, allowed: string -> bool,
                     a: string, b: string, since: int)
    requires Safe(s) && Step(s, Refresh(cs, src), t, allowed) && Waits(s, a, b, since) && Fair(t, a, b) && a != b
    ensures Waits(t, a, b, since)
  {
    var m := t.queue.clusters;
    LastProcessedKept(s.queue.clusters, cs, src, allowed, a);
    LastProcessedKept(s.queue.clusters, cs, src, allowed, b);
    RefreshKeepsProcessing(s.queue.clusters, cs, src, allowed);
    if a in t.queue.pending {
      assert Selectable(m, a) && Selectable(m, b);
      PendingOrder(m, t.queue.pending, b, a);
    }
  }

  lemma WaitsSelect(s: System, w: nat, ctx: nat, t: System, allowed: string -> bool, a: string, b: string, since: int)
    requires Safe(s) && Step(s, Select(w, ctx), t, allowed) && Waits(s, a, b, since) && a != b
    requires !Takes(s, Select(w, ctx), b)
    ensures !Takes(s, Select(w, ctx), a) && Waits(t, a, b, since)
  {
    if s.queue.pending != [] {
      var head := s.queue.pending[0];
      assert head in s.queue.pending;
      if a in s.queue.pending {
        var x, y :| 0 <= x < y < |s.queue.pending| && s.queue.pending[x] == b && s.queue.pending[y] == a;
        assert x > 0;
        if head == a {
          assert false;
        }
        assert t.queue.pending[x - 1] == b && t.queue.pending[y - 1] == a;
      }
    }
  }

  lemma WaitsFinish(s: System, w: nat, now: int, t: System, allowed: string -> bool, a: string, b: string, since: int)
    requires Safe(s) && Step(s, Finish(w, now), t, allowed) && Waits(s, a, b, since) && now > s.clock && a != b
    ensures Waits(t, a, b, since)
  {
    assert Holds(s.queue.clusters, s.held[w]);
  }

  /** A step under which B keeps its place: it does not take B, the clock moves, and a
      refresh finds B idle, at least as urgent as A, and A still listed. */
  ghost predicate Passes(s: System, act: Action, t: System, allowed: string -> bool, a: string, b: string) {
    && Step(s, act, t, allowed)
    && !Takes(s, act, b)
    && (act.Finish? ==> act.now > s.clock)
    && (act.Refresh? ==> Fair(t, a, b))
  }

  lemma {:induction false} StillWaits(states: seq<System>, actions: seq<Action>, allowed: string -> bool,
                                      i: nat, j: nat, a: string, b: string, since: int)
    requires |states| == |actions| + 1 && i <= j <= |actions| && a != b
    requires Safe(states[i]) && Waits(states[i], a, b, since)
    requires AllPass(states, actions, allowed, i, j, a, b)
    ensures Safe(states[j]) && Waits(states[j], a, b, since)
  {
    if i < j {
      PassesAt(states, actions, allowed, i, j, a, b);
      StillWaits(states, actions, allowed, i, j - 1, a, b, since);
      WaitsStep(states[j - 1], actions[j - 1], states[j], allowed, a, b, since);
    }
  }

  ghost predicate AllPass(states: seq<System>, actions: seq<Action>, allowed: string -> bool, i: nat,
                          j: nat, a: string, b: string)
    requires |states| == |actions| + 1 && j <= |actions|
  {
    forall k {:trigger actions[k]} :: i <= k < j ==> Passes(states[k], actions[k], states[k + 1], allowed, a, b)
  }

  lemma PassesAt(states: seq<System>, actions: seq<Action>, allowed: string -> bool, i: nat, j: nat,
                 a: string, b: string)
    requires |states| == |actions| + 1 && i < j <= |actions| && AllPass(states, actions, allowed, i, j, a, b)
    ensures Passes(states[j - 1], actions[j - 1], states[j], allowed, a, b)
    ensures AllPass(states, actions, allowed, i, j - 1, a, b)
  {
    var k := j - 1;
    assert Passes(states[k], actions[k], states[k + 1], allowed, a, b);
  }

  lemma WaitsStep(s: System, act: Action, t: System, allowed: string -> bool, a: string, b: string, since: int)
    requires Safe(s) && Passes(s, act, t, allowed, a, b) && Waits(s, a, b, since) && a != b
    ensures Safe(t) && Waits(t, a, b, since)
  {
    SafeStep(s, act, t, allowed);
    match act
    case Refresh(cs, src) => WaitsRefresh(s, cs, src, t, allowed, a, b, since);
    case Select(w, ctx) => WaitsSelect(s, w, ctx, t, allowed, a, b, since);
    case Finish(w, now) => WaitsFinish(s, w, now, t, allowed, a, b, since);
    case Work(_, _) =>
  }

  lemma TakenWaits(s: System, act: Action, t: System, allowed: string -> bool, a: string, b: string)
    requires Safe(s) && Step(s, act, t, allowed) && Takes(s, act, a) && b in s.queue.pending && a != b
    requires PastOnly(s)
    ensures Safe(t) && Waits(t, a, b, s.clock)
  {
    SafeStep(s, act, t, allowed);
    assert a !in s.queue.pending[1..];
  }

  /** Entries were last processed in the past, if the clock moves forward. */
  lemma {:induction false} InThePast(states: seq<System>, actions: seq<Action>, allowed: string -> bool, i: nat)
    requires Run(states, actions, allowed) && Initial(states[0]) && states[0].clock >= 0 && i < |states|
    requires Ticking(states, actions, i)
    ensures states[i].clock >= 0 && PastOnly(states[i])
  {
    if i > 0 {
      InThePast(states, actions, allowed, i - 1);
      AlwaysSafe(states, actions, allowed, i - 1);
      assert Step(states[i - 1], actions[i - 1], states[i], allowed);
      PastStep(states[i - 1], actions[i - 1], states[i], allowed);
    }
  }

  lemma PastStep(s: System, a: Action, t: System, allowed: string -> bool)
    requires Safe(s) && Step(s, a, t, allowed) && PastOnly(s) && s.clock >= 0
    requires a.Finish? ==> a.now > s.clock
    ensures t.clock >= 0 && PastOnly(t)
  {
    if a.Refresh? {
      RefreshPast(s, a.available, a.source, t, allowed);
    }
  }

  ghost predicate PastOnly(s: System) {
    forall id :: id in s.queue.clusters ==> s.queue.clusters[id].lastProcessed <= s.clock
  }

  ghost predicate Ticking(states: seq<System>, actions: seq<Action>, to: nat)
    requires |states| == |actions| + 1 && to <= |actions|
  {
    forall k {:trigger actions[k]} :: 0 <= k < to && actions[k].Finish? ==> actions[k].now > states[k].clock
  }

  lemma RefreshPast(s: System, cs: seq<Cluster>, src: Source, t: System, allowed: string -> bool)
    requires Safe(s) && Step(s, Refresh(cs, src), t, allowed) && PastOnly(s) && s.clock >= 0
    ensures PastOnly(t)
  {
    forall id | id in t.queue.clusters ensures t.queue.clusters[id].lastProcessed <= t.clock {
      if id in s.queue.clusters {
        LastProcessedKept(s.queue.clusters, cs, src, allowed, id);
      } else {
        NewEntries(s.queue.clusters, cs, src, allowed, id);
      }
    }
  }

  /** A cluster that was not in the list starts without a history. */
  lemma {:induction false} NewEntries(m: map<string, Entry>, cs: seq<Cluster>, src: Source,
                                      allowed: string -> bool, id: string)
    requires id !in m
    ensures id in UpsertedAll(m, cs, src, allowed) ==> UpsertedAll(m, cs, src, allowed)[id].lastProcessed == 0
  {
    if cs != [] {
      NewEntries(m, cs[..|cs| - 1], src, allowed, id);
    }
  }

  /** Bounded overtaking: if B is pending when A is taken, A is not taken again
      before B, as long as the clock moves and every refresh in between finds B idle
      and at least as urgent as A, and A still listed. */
  lemma BoundedOvertaking(states: seq<System>, actions: seq<Action>, allowed: string -> bool,
                          i: nat, j: nat, a: string, b: string)
    requires Run(states, actions, allowed) && Initial(states[0]) && states[0].clock >= 0
    requires Ticking(states, actions, |actions|)
    requires i < j < |actions| && a != b
    requires Takes(states[i], actions[i], a) && b in states[i].queue.pending
    requires forall k {:trigger actions[k]} :: i < k < j && actions[k].Refresh? ==> Fair(states[k + 1], a, b)
    requires Takes(states[j], actions[j], a)
    ensures exists k :: i < k < j && Takes(states[k], actions[k], b)
  {
    AlwaysSafe(states, actions, allowed, i);
    InThePast(states, actions, allowed, i);
    if forall k :: i < k < j ==> !Takes(states[k], actions[k], b) {
      assert Step(states[i], actions[i], states[i + 1], allowed);
      TakenWaits(states[i], actions[i], states[i + 1], allowed, a, b);
      forall k {:trigger actions[k]} | i + 1 <= k < j
        ensures Passes(states[k], actions[k], states[k + 1], allowed, a, b)
      {
        assert Step(states[k], actions[k], states[k + 1], allowed);
      }
      StillWaits(states, actions, allowed, i + 1, j, a, b, states[i].clock);
      NotTakenWhileWaiting(states[j], actions[j], a, b, states[i].clock);
    }
  }

  /** While B waits, A is not first in the queue. */
  lemma NotTakenWhileWaiting(s: System, act: Action, a: string, b: string, since: int)
    requires Safe(s) && Waits(s, a, b, since) && a != b
    ensures !Takes(s, act, a)
  {
    assert s.queue.pending != [] ==> s.queue.pending[0] in s.queue.pending;
  }

  /** The last condition is needed: a cluster that drops out of the list and comes
      back has lost its history, and goes ahead of every equally urgent cluster that
      was processed before. */
  lemma ForgottenClusterOvertakes(s: System, cs: seq<Cluster>, src: Source, t: System,
                                  allowed: string -> bool, a: string, b: string)
    requires Safe(s) && Step(s, Refresh(cs, src), t, allowed)
    requires a !in s.queue.clusters && b in s.queue.clusters && s.queue.clusters[b].lastProcessed > 0
    requires a in t.queue.pending && b in t.queue.pending
    requires t.queue.clusters[a].priority == t.queue.clusters[b].priority
    ensures Precedes(t.queue.pending, a, b)
  {
    NewEntries(s.queue.clusters, cs, src, allowed, a);
    LastProcessedKept(s.queue.clusters, cs, src, allowed, b);
    PendingOrder(t.queue.clusters, t.queue.pending, a, b);
  }

  /** A cluster whose configuration cannot be determined, and which nobody holds. */
  ghost function Troubled(c: Cluster, lastProcessed: int): Entry {
    Entry(lastProcessed, Idle, NoCancel, NORMAL, c, ParseVersion(c.status.currentVersion), None)
  }

  lemma RefreshTroubled(m: map<string, Entry>, c: Cluster, src: Source, allowed: string -> bool)
    requires Listed(c, allowed) && src.resolve(c) == None && !UpdateBlocked(c)
    requires c.id in m ==> !m[c.id].state.Processing? && m[c.id].priority == NORMAL && m[c.id].cancel == NoCancel
    ensures c.id in Upserted(m, c, src, allowed)
    ensures Prioritised(Upserted(m, c, src, allowed)[c.id]) ==
      Troubled(c, if c.id in m then m[c.id].lastProcessed else 0)
    ensures forall id :: id != c.id ==> (id in Upserted(m, c, src, allowed) <==> id in m)
    ensures forall id :: id != c.id && id in m ==> Upserted(m, c, src, allowed)[id] == m[id]
  {
  }

  lemma RefreshOne(m: map<string, Entry>, b: Cluster, src: Source, allowed: string -> bool)
    requires Listed(b, allowed) && src.resolve(b) == None && !UpdateBlocked(b)
    requires b.id in m && m[b.id] == Troubled(b, m[b.id].lastProcessed)
    requires forall id :: id in m ==> !m[id].state.Processing?
    ensures RefreshedClusters(m, [b], src, allowed) == map[b.id := m[b.id]]
  {
    assert [b][..0] == [];
    assert UpsertedAll(m, [], src, allowed) == m;
    assert UpsertedAll(m, [b], src, allowed) == Upserted(m, b, src, allowed);
    RefreshTroubled(m, b, src, allowed);
    assert ListedIds([b], allowed) == {b.id};
  }

  lemma RefreshNone(b: Cluster, src: Source, allowed: string -> bool)
    requires Listed(b, allowed) && src.resolve(b) == None && !UpdateBlocked(b)
    ensures RefreshedClusters(map[], [b], src, allowed) == map[b.id := Troubled(b, 0)]
  {
    assert [b][..0] == [];
    assert UpsertedAll(map[], [], src, allowed) == map[];
    assert UpsertedAll(map[], [b], src, allowed) == Upserted(map[], b, src, allowed);
    RefreshTroubled(map[], b, src, allowed);
    assert ListedIds([b], allowed) == {b.id};
  }

  lemma RefreshTwo(m: map<string, Entry>, a: Cluster, b: Cluster, src: Source, allowed: string -> bool)
    requires Listed(a, allowed) && src.resolve(a) == None && !UpdateBlocked(a) && a.id !in m
    requires Listed(b, allowed) && src.resolve(b) == None && !UpdateBlocked(b)
    requires m.Keys == {b.id} && !m[b.id].state.Processing? && m[b.id].priority == NORMAL && m[b.id].cancel == NoCancel
    ensures RefreshedClusters(m, [a, b], src, allowed) ==
      map[a.id := Troubled(a, 0), b.id := Troubled(b, m[b.id].lastProcessed)]
  {
    assert [a, b][..1] == [a] && [a][..0] == [];
    assert UpsertedAll(m, [], src, allowed) == m;
    var n := Upserted(m, a, src, allowed);
    assert UpsertedAll(m, [a], src, allowed) == n;
    assert UpsertedAll(m, [a, b], src, allowed) == Upserted(n, b, src, allowed);
    RefreshTroubled(m, a, src, allowed);
    RefreshTroubled(n, b, src, allowed);
    assert ListedIds([a, b], allowed) == {a.id, b.id} by {
      assert a in [a, b] && b in [a, b];
    }
  }

  ghost predicate Simple(c: Cluster, src: Source, allowed: string -> bool) {
    Listed(c, allowed) && !UpdateBlocked(c) && src.resolve(c) == None
  }

  /** Both clusters are waiting, A without a history. */
  ghost function Waiting(a: Cluster, b: Cluster, clock: int): System {
    System(Queue(map[a.id := Troubled(a, 0), b.id := Troubled(b, 5)], [a.id, b.id]), map[], {}, clock)
  }

  ghost function TakenFirst(a: Cluster, b: Cluster, clock: int): System {
    var busy := Troubled(a, 0).(state := Processing, cancel := CancelOf(0));
    System(Queue(map[a.id := busy, b.id := Troubled(b, 5)], [b.id]), map[0 := Holder(a.id, 0)], {}, clock)
  }

  ghost function FinishedFirst(a: Cluster, b: Cluster): System {
    var done := Troubled(a, 0).(state := Processed, lastProcessed := 6);
    System(Queue(map[a.id := done, b.id := Troubled(b, 5)], [b.id]), map[], {}, 6)
  }

  ghost function Alone(b: Cluster): System {
    System(Queue(map[b.id := Troubled(b, 5)], [b.id]), map[], {}, 6)
  }

  /** A step that does not take B, with the clock moving and B idle and urgent. */
  ghost predicate FairStep(s: System, act: Action, t: System, allowed: string -> bool, a: string, b: string) {
    && TickingStep(s, act, t, allowed)
    && !Takes(s, act, b)
    && (act.Refresh? ==> IdleAndUrgent(t, a, b))
  }

  /** `Fair` without the condition that A is listed. */
  ghost predicate IdleAndUrgent(t: System, a: string, b: string) {
    var m := t.queue.clusters;
    b in m && m[b].state.Idle? && (a in m && m[a].state.Idle? ==> m[a].priority <= m[b].priority)
  }

  lemma TakeFirst(a: Cluster, b: Cluster, clock: int, allowed: string -> bool)
    requires a.id != b.id
    ensures FairStep(Waiting(a, b, clock), Select(0, 0), TakenFirst(a, b, clock), allowed, a.id, b.id)
    ensures Takes(Waiting(a, b, clock), Select(0, 0), a.id)
  {
  }

  lemma FinishFirst(a: Cluster, b: Cluster, allowed: string -> bool)
    requires a.id != b.id
    ensures FairStep(TakenFirst(a, b, 5), Finish(0, 6), FinishedFirst(a, b), allowed, a.id, b.id)
  {
  }

  lemma DropFirst(a: Cluster, b: Cluster, src: Source, allowed: string -> bool)
    requires a.id != b.id && Simple(b, src, allowed)
    ensures FairStep(FinishedFirst(a, b), Refresh([b], src), Alone(b), allowed, a.id, b.id)
  {
    RefreshOne(FinishedFirst(a, b).queue.clusters, b, src, allowed);
  }

  lemma RelistFirst(a: Cluster, b: Cluster, src: Source, allowed: string -> bool)
    requires a.id != b.id && Simple(a, src, allowed) && Simple(b, src, allowed)
    ensures FairStep(Alone(b), Refresh([a, b], src), Waiting(a, b, 6), allowed, a.id, b.id)
  {
    RefreshTwo(Alone(b).queue.clusters, a, b, src, allowed);
  }

  /** How B comes to have a history: it is listed alone, taken and finished. */
  ghost function Empty(): System {
    System(Queue(map[], []), map[], {}, 0)
  }

  ghost function Listed0(b: Cluster): System {
    System(Queue(map[b.id := Troubled(b, 0)], [b.id]), map[], {}, 0)
  }

  ghost function Taken0(b: Cluster): System {
    var busy := Troubled(b, 0).(state := Processing, cancel := CancelOf(0));
    System(Queue(map[b.id := busy], []), map[0 := Holder(b.id, 0)], {}, 0)
  }

  ghost function Finished0(b: Cluster): System {
    System(Queue(map[b.id := Troubled(b, 5).(state := Processed)], []), map[], {}, 5)
  }

  lemma ListAlone(b: Cluster, src: Source, allowed: string -> bool)
    requires Simple(b, src, allowed)
    ensures TickingStep(Empty(), Refresh([b], src), Listed0(b), allowed)
  {
    RefreshNone(b, src, allowed);
  }

  lemma TakeAlone(b: Cluster, allowed: string -> bool)
    ensures TickingStep(Listed0(b), Select(0, 0), Taken0(b), allowed)
  {
  }

  lemma FinishAlone(b: Cluster, allowed: string -> bool)
    ensures TickingStep(Taken0(b), Finish(0, 5), Finished0(b), allowed)
  {
  }

  lemma ListBoth(a: Cluster, b: Cluster, src: Source, allowed: string -> bool)
    requires a.id != b.id && Simple(a, src, allowed) && Simple(b, src, allowed)
    ensures TickingStep(Finished0(b), Refresh([a, b], src), Waiting(a, b, 5), allowed)
  {
    RefreshTwo(Finished0(b).queue.clusters, a, b, src, allowed);
  }

  ghost predicate TickingStep(s: System, act: Action, t: System, allowed: string -> bool) {
    Step(s, act, t, allowed) && (act.Finish? ==> act.now > s.clock)
  }

  /** The states and the actions of a run in which A overtakes B twice. */
  ghost function Overtaking(a: Cluster, b: Cluster, k: nat): System {
    match k
    case 0 => Empty()
    case 1 => Listed0(b)
    case 2 => Taken0(b)
    case 3 => Finished0(b)
    case 4 => Waiting(a, b, 5)
    case 5 => TakenFirst(a, b, 5)
    case 6 => FinishedFirst(a, b)
    case 7 => Alone(b)
    case 8 => Waiting(a, b, 6)
    case _ => TakenFirst(a, b, 6)
  }

  ghost function OvertakingAction(a: Cluster, b: Cluster, src: Source, k: nat): Action {
    match k
    case 0 | 6 => Refresh([b], src)
    case 3 | 7 => Refresh([a, b], src)
    case 2 => Finish(0, 5)
    case 5 => Finish(0, 6)
    case _ => Select(0, 0)
  }

  lemma HistoryStep(a: Cluster, b: Cluster, src: Source, allowed: string -> bool, k: nat)
    requires a.id != b.id && Simple(a, src, allowed) && Simple(b, src, allowed) && k < 4
    ensures TickingStep(Overtaking(a, b, k), OvertakingAction(a, b, src, k), Overtaking(a, b, k + 1), allowed)
  {
    match k
    case 0 => ListAlone(b, src, allowed);
    case 1 => TakeAlone(b, allowed);
    case 2 => FinishAlone(b, allowed);
    case 3 => ListBoth(a, b, src, allowed);
  }

  lemma OvertakingStep(a: Cluster, b: Cluster, src: Source, allowed: string -> bool, k: nat)
    requires a.id != b.id && Simple(a, src, allowed) && Simple(b, src, allowed) && 4 <= k < 9
    ensures FairStep(Overtaking(a, b, k), OvertakingAction(a, b, src, k), Overtaking(a, b, k + 1), allowed, a.id, b.id)
  {
    match k
    case 4 => TakeFirst(a, b, 5, allowed);
    case 5 => FinishFirst(a, b, allowed);
    case 6 => DropFirst(a, b, src, allowed);
    case 7 => RelistFirst(a, b, src, allowed);
    case 8 => TakeFirst(a, b, 6, allowed);
  }

  /** That condition is needed: here, in a run from the beginning, A is taken twice while B,
      which every refresh in between finds idle and at least as urgent as A, is not taken,
      because one of them did not list A. */
  lemma OvertakenTwice(a: Cluster, b: Cluster, src: Source, allowed: string -> bool)
    returns (states: seq<System>, actions: seq<Action>)
    requires a.id != b.id && Simple(a, src, allowed) && Simple(b, src, allowed)
    ensures Run(states, actions, allowed) && |actions| == 9 && Initial(states[0]) && states[0].clock >= 0
    ensures Ticking(states, actions, 9)
    ensures Takes(states[4], actions[4], a.id) && b.id in states[4].queue.pending && Takes(states[8], actions[8], a.id)
    ensures forall k {:trigger actions[k]} :: 4 <= k < 9 ==>
      FairStep(states[k], actions[k], states[k + 1], allowed, a.id, b.id)
  {
    states := seq(10, k requires 0 <= k => Overtaking(a, b, k));
    actions := seq(9, k requires 0 <= k => OvertakingAction(a, b, src, k));
    forall k | 0 <= k < 9 ensures TickingStep(states[k], actions[k], states[k + 1], allowed) {
      if k < 4 {
        HistoryStep(a, b, src, allowed, k);
      } else {
        OvertakingStep(a, b, src, allowed, k);
      }
    }
    forall k | 4 <= k < 9 ensures FairStep(states[k], actions[k], states[k + 1], allowed, a.id, b.id) {
      OvertakingStep(a, b, src, allowed, k);
    }
    TakeFirst(a, b, 5, allowed);
    TakeFirst(a, b, 6, allowed);
  }
}
