/** `ClusterList` itself: entries that are updated in place, a map that holds them and
    the slice of those that are pending. Each method is one critical section, and does
    what the corresponding step of the work queue says. */
module ClusterLists {
  import opened Options
  import opened Strings
  import opened ClusterVersions
  import opened WorkQueues

  class ClusterInfo {
    var lastProcessed: int
    var state: EntryState
    var cancel: Cancel
    var priority: nat
    var cluster: Cluster
    var current: ClusterVersion
    var next: Option<ClusterVersion>

    constructor (c: Cluster, current: ClusterVersion, next: Option<ClusterVersion>)
      ensures View() == Entry(0, Idle, NoCancel, 0, c, current, next)
    {
      lastProcessed, state, cancel, priority, cluster := 0, Idle, NoCancel, 0, c;
      this.current, this.next := current, next;
    }

    /** Takes over the registry's data; the history and the priority stay. */
    method Renew(c: Cluster, current: ClusterVersion, next: Option<ClusterVersion>)
      modifies this
      ensures View() == old(View()).(state := Idle, cluster := c, current := current, next := next)
    {
      state, cluster := Idle, c;
      this.current, this.next := current, next;
    }

    method Take(ctx: nat)
      modifies this
      ensures View() == old(View()).(state := Processing, cancel := CancelOf(ctx))
    {
      state, cancel := Processing, CancelOf(ctx);
    }

    function View(): Entry
      reads this
    {
      Entry(lastProcessed, state, cancel, priority, cluster, current, next)
    }
  }

  class ClusterList {
    const allowed: string -> bool
    var clusters: map<string, ClusterInfo>
    var pending: seq<ClusterInfo>
    var cancelled: set<Cancel>

    ghost function Entries(): map<string, Entry>
      reads this`clusters, clusters.Values
    {
      map id | id in clusters :: clusters[id].View()
    }

    ghost function View(): Queue
      reads this, clusters.Values, pending
    {
      Queue(Entries(), Ids(pending))
    }

    /** Entries are stored under the ID of their cluster, pending ones too. */
    ghost predicate Valid()
      reads this, clusters.Values, pending
    {
      FiledById(Entries()) && forall i :: 0 <= i < |pending| ==> pending[i] in clusters.Values
    }

    constructor (allowed: string -> bool)
      ensures Valid() && View() == Queue(map[], []) && cancelled == {} && this.allowed == allowed
    {
      this.allowed := allowed;
      clusters, pending, cancelled := map[], [], {};
    }

    /** `UpdateAvailable`. */
    method UpdateAvailable(available: seq<Cluster>, src: Source)
      requires Valid()
      modifies this, clusters.Values
      ensures Valid() && RefreshStep(old(View()), View(), available, src, allowed)
      ensures cancelled == old(cancelled) + Aborts(old(Entries()), available, allowed)
      ensures forall info :: info in clusters.Values ==> info in old(clusters.Values) || fresh(info)
    {
      UpdateClusters(available, src);
      FindPending();
    }

    /** Finds out which clusters need updating. */
    method FindPending()
      requires FiledById(Entries())
      modifies this`pending, clusters.Values
      ensures Valid() && Entries() == AllPrioritised(old(Entries())) && PendingFor(Entries(), Ids(pending))
    {
      var urgent := FindUrgent();
      pending := urgent;
    }

    method FindUrgent() returns (sorted: seq<ClusterInfo>)
      requires FiledById(Entries())
      modifies clusters.Values
      ensures FiledById(Entries()) && Entries() == AllPrioritised(old(Entries())) && PendingFor(Entries(), Ids(sorted))
      ensures forall i :: 0 <= i < |sorted| ==> sorted[i] in clusters.Values
    {
      var urgent := Prioritise();
      sorted := SortUrgent(urgent);
    }

    method SortUrgent(urgent: seq<ClusterInfo>) returns (sorted: seq<ClusterInfo>)
      requires FiledById(Entries()) && Distinct(urgent) && Collected(urgent, {})
      ensures PendingFor(Entries(), Ids(sorted)) && forall i :: 0 <= i < |sorted| ==> sorted[i] in clusters.Values
    {
      sorted := SortPending(urgent);
      PendingOf(urgent, sorted);
    }

    method UpdateClusters(available: seq<Cluster>, src: Source)
      requires FiledById(Entries())
      modifies this`clusters, this`cancelled, clusters.Values
      ensures FiledById(Entries())
      ensures Entries() == Pruned(UpsertedAll(old(Entries()), available, src, allowed), ListedIds(available, allowed))
      ensures cancelled == old(cancelled) + Aborts(old(Entries()), available, allowed)
      ensures forall info :: info in clusters.Values ==> info in old(clusters.Values) || fresh(info)
    {
      var ids := UpsertAll(available, src);
      Prune(ids);
    }

    lemma PendingOf(infos: seq<ClusterInfo>, sorted: seq<ClusterInfo>)
      requires FiledById(Entries()) && Distinct(sorted) && Collected(infos, {}) && InSequence(Views(sorted))
      requires Elements(sorted) == Elements(infos)
      ensures PendingFor(Entries(), Ids(sorted)) && forall i :: 0 <= i < |sorted| ==> sorted[i] in clusters.Values
    {
      assert forall info :: info in sorted <==> info in Elements(sorted);
      assert forall info :: info in infos <==> info in Elements(infos);
      IdsOf(sorted);
      assert forall i :: 0 <= i < |sorted| ==> sorted[i] in sorted;
    }

    /** The registry's clusters are added or updated, aborting what is blocked. */
    method UpsertAll(available: seq<Cluster>, src: Source) returns (ids: set<string>)
      requires FiledById(Entries())
      modifies this`clusters, this`cancelled, clusters.Values
      ensures FiledById(Entries()) && ids == ListedIds(available, allowed)
      ensures Entries() == UpsertedAll(old(Entries()), available, src, allowed)
      ensures cancelled == old(cancelled) + Aborts(old(Entries()), available, allowed)
      ensures forall info :: info in clusters.Values ==> info in old(clusters.Values) || fresh(info)
    {
      ids := {};
      ghost var before := Entries();
      for i := 0 to |available|
        invariant ids == ListedIds(available[..i], allowed)
        invariant UpsertedSoFar(before, old(cancelled), available[..i], src)
        invariant forall info :: info in clusters.Values ==> info in old(clusters.Values) || fresh(info)
      {
        ListedSnoc(available, i, allowed);
        if Listed(available[i], allowed) {
          ids := ids + {available[i].id};
        }
        UpsertNext(before, old(cancelled), available, i, src);
      }
      assert available[..|available|] == available;
    }

    /** The clusters of the registry that came first have been added or updated. */
    ghost predicate UpsertedSoFar(before: map<string, Entry>, calls: set<Cancel>, cs: seq<Cluster>, src: Source)
      reads this`clusters, this`cancelled, clusters.Values
    {
      && FiledById(before) && FiledById(Entries()) && Entries() == UpsertedAll(before, cs, src, allowed)
      && cancelled == calls + Aborts(before, cs, allowed)
    }

    /** One turn of the loop. */
    method UpsertNext(ghost before: map<string, Entry>, ghost calls: set<Cancel>, available: seq<Cluster>,
                      i: nat, src: Source)
      requires i < |available| && UpsertedSoFar(before, calls, available[..i], src)
      modifies this`clusters, this`cancelled, clusters.Values
      ensures UpsertedSoFar(before, calls, available[..i + 1], src)
      ensures forall info :: info in clusters.Values ==> info in old(clusters.Values) || fresh(info)
    {
      UpsertSnoc(before, available, i, src, allowed);
      AbortsSnoc(before, available, i, src, allowed);
      Upsert(available[i], src);
    }

    /** Entries that are neither in processing nor listed are deleted. */
    method Prune(ids: set<string>)
      modifies this`clusters
      ensures Entries() == Pruned(old(Entries()), ids) && clusters.Values <= old(clusters.Values)
    {
      var todo := clusters.Keys;
      while todo != {}
        invariant todo <= old(clusters).Keys
        invariant clusters == map id | id in old(clusters)
          && (id in todo || old(clusters)[id].state.Processing? || id in ids) :: old(clusters)[id]
      {
        var id :| id in todo;
        if !clusters[id].state.Processing? && id !in ids {
          clusters := clusters - {id};
        }
        todo := todo - {id};
      }
    }

    /** Idle entries get their priority; those with something to do are collected, in
        the order in which the map is iterated. */
    method Prioritise() returns (infos: seq<ClusterInfo>)
      requires FiledById(Entries())
      modifies clusters.Values
      ensures Entries() == AllPrioritised(old(Entries())) && FiledById(Entries())
      ensures Distinct(infos) && Collected(infos, {})
    {
      var todo := clusters.Keys;
      ghost var before := Entries();
      infos := [];
      while todo != {}
        invariant todo <= clusters.Keys && FiledById(Entries())
        invariant Entries() == PrioritisedBut(before, todo)
        invariant Distinct(infos) && Collected(infos, todo)
      {
        var id :| id in todo;
        infos := PrioritiseNext(infos, todo, id, before);
        todo := todo - {id};
      }
      OneMore(before, {}, "");
    }

    /** One turn of the loop. */
    method PrioritiseNext(infos: seq<ClusterInfo>, ghost todo: set<string>, id: string,
                          ghost before: map<string, Entry>)
      returns (r: seq<ClusterInfo>)
      requires FiledById(Entries()) && Entries() == PrioritisedBut(before, todo) && id in todo && id in clusters
      requires Distinct(infos) && Collected(infos, todo)
      modifies clusters[id]
      ensures FiledById(Entries()) && Entries() == PrioritisedBut(before, todo - {id})
      ensures Distinct(r) && Collected(r, todo - {id})
    {
      ghost var rest := Entries();
      var urgent := PrioritiseOne(id);
      OneMore(before, todo, id);
      CollectOne(infos, todo, id, rest);
      r := if urgent then infos + [clusters[id]] else infos;
    }

    method PrioritiseOne(id: string) returns (urgent: bool)
      requires FiledById(Entries()) && id in clusters
      modifies clusters[id]
      ensures Entries() == old(Entries())[id := Prioritised(old(Entries())[id])]
      ensures urgent <==> Selectable(Entries(), id)
    {
      var info := clusters[id];
      urgent := false;
      if info.state.Idle? {
        info.priority := UpdatePriority(info.View());
        OthersUnchanged(info);
        urgent := info.priority != NONE;
      }
    }

    /** The entries with something to do, outside of `todo`, have been collected. */
    ghost predicate Collected(infos: seq<ClusterInfo>, todo: set<string>)
      reads this`clusters, clusters.Values
    {
      && (forall info :: info in infos ==> info in clusters.Values)
      && forall id :: id in clusters ==> (clusters[id] in infos <==> id !in todo && Selectable(Entries(), id))
    }

    lemma CollectOne(infos: seq<ClusterInfo>, todo: set<string>, id: string, rest: map<string, Entry>)
      requires id in todo && id in clusters && Distinct(infos) && FiledById(Entries())
      requires id in rest && Entries() == rest[id := Prioritised(rest[id])]
      requires forall info :: info in infos ==> info in clusters.Values
      requires forall x :: x in clusters ==> (clusters[x] in infos <==> x !in todo && Selectable(rest, x))
      ensures Selectable(Entries(), id) ==>
        Distinct(infos + [clusters[id]]) && Collected(infos + [clusters[id]], todo - {id})
      ensures !Selectable(Entries(), id) ==> Collected(infos, todo - {id})
    {
      assert clusters[id] !in infos;
      forall x | x in clusters && x != id ensures clusters[x] != clusters[id] {
        assert Entries()[x].cluster.id == x && Entries()[id].cluster.id == id;
      }
    }

    lemma IdsOf(infos: seq<ClusterInfo>)
      requires FiledById(Entries()) && Distinct(infos) && Collected(infos, {}) && InSequence(Views(infos))
      ensures PendingFor(Entries(), Ids(infos))
    {
      var m, ids := Entries(), Ids(infos);
      forall i | 0 <= i < |infos|
        ensures ids[i] in clusters && clusters[ids[i]] == infos[i] && m[ids[i]] == infos[i].View()
      {
        assert infos[i] in infos;
        var id :| id in clusters && clusters[id] == infos[i];
        assert m[id].cluster.id == id;
      }
      forall id | Selectable(m, id) ensures id in ids {
        assert clusters[id] in infos;
        var i :| 0 <= i < |infos| && infos[i] == clusters[id];
        assert m[id].cluster.id == id && ids[i] == id;
      }
      assert forall i :: 0 <= i < |ids| ==> clusters[ids[i]] in infos;
      assert forall i :: 0 <= i < |ids| ==> m[ids[i]] == Views(infos)[i];
    }

    /** `SelectNext`. */
    method SelectNext(ctx: nat) returns (info: ClusterInfo?)
      requires Valid()
      modifies this`pending, pending
      ensures Valid() && SelectStep(old(View()), View(), ctx)
      ensures info == null <==> old(pending) == []
      ensures info != null ==> info == old(pending)[0] && info.cluster.id == old(View()).pending[0]
    {
      if |pending| == 0 {
        return null;
      }
      info := pending[0];
      info.Take(ctx);
      OthersUnchanged(info);
      pending := pending[1..];
      Selected(ctx);
    }

    twostate lemma Selected(ctx: nat)
      requires old(Valid() && pending != []) && clusters == old(clusters) && pending == old(pending)[1..]
      requires forall info :: info in clusters.Values ==> info.cluster == old(info.cluster)
      requires var e := old(pending[0].View());
        Entries() == old(Entries())[e.cluster.id := e.(state := Processing, cancel := CancelOf(ctx))]
      ensures Valid() && SelectStep(old(View()), View(), ctx)
    {
      assert Ids(pending) == old(Ids(pending))[1..];
      var id :| id in clusters && clusters[id] == old(pending)[0];
      assert old(Entries())[id].cluster.id == id;
    }

    /** `ClusterProcessed`. */
    method ClusterProcessed(cluster: ClusterInfo, now: int)
      requires Valid()
      modifies if cluster.cluster.id in clusters then {clusters[cluster.cluster.id]} else {}
      ensures Valid() && FinishStep(old(View()), View(), old(cluster.cluster.id), now)
    {
      if cluster.cluster.id in clusters {
        var info := clusters[cluster.cluster.id];
        info.state := Processed;
        info.cancel := NoCancel;
        info.lastProcessed := now;
        OthersUnchanged(info);
      }
    }

    /** One turn of the loop over the clusters of the registry. */
    method Upsert(c: Cluster, src: Source)
      requires FiledById(Entries())
      modifies this`clusters, this`cancelled, clusters.Values
      ensures FiledById(Entries())
      ensures Entries() == Upserted(old(Entries()), c, src, allowed)
      ensures cancelled == old(cancelled) + Aborts(old(Entries()), [c], allowed)
      ensures forall info :: info in clusters.Values ==> info in old(clusters.Values) || fresh(info)
    {
      UpsertedKeeps(Entries(), c, src, allowed);
      OneAbort(Entries(), c, allowed);
      if Listed(c, allowed) {
        UpsertListed(c, src);
      }
    }

    method UpsertListed(c: Cluster, src: Source)
      requires FiledById(Entries()) && Listed(c, allowed)
      modifies this`clusters, this`cancelled, clusters.Values
      ensures Entries() == Upserted(old(Entries()), c, src, allowed)
      ensures cancelled == old(cancelled) +
        if UpdateBlocked(c) && c.id in old(Entries())
          && old(Entries())[c.id].state.Processing? then {old(Entries())[c.id].cancel} else {}
      ensures forall info :: info in clusters.Values ==> info in old(clusters.Values) || fresh(info)
    {
      if c.id !in clusters || !clusters[c.id].state.Processing? {
        UpsertFree(c, src);
      } else if UpdateBlocked(c) {
        cancelled := cancelled + {clusters[c.id].cancel};
      }
    }

    /** A cluster that nobody holds. */
    method UpsertFree(c: Cluster, src: Source)
      requires FiledById(Entries()) && Listed(c, allowed) && (c.id in clusters ==> !clusters[c.id].state.Processing?)
      modifies this`clusters, clusters.Values
      ensures Entries() == Upserted(old(Entries()), c, src, allowed)
      ensures forall info :: info in clusters.Values ==> info in old(clusters.Values) || fresh(info)
    {
      var current := ParseVersion(c.status.currentVersion);
      var next := Next(c, src);
      if c.id !in clusters {
        Insert(c, current, next);
      } else {
        Renew(c, current, next);
      }
    }

    method Insert(c: Cluster, current: ClusterVersion, next: Option<ClusterVersion>)
      modifies this`clusters
      ensures Entries() == old(Entries())[c.id := Entry(0, Idle, NoCancel, 0, c, current, next)]
      ensures forall info :: info in clusters.Values ==> info in old(clusters.Values) || fresh(info)
    {
      var info := new ClusterInfo(c, current, next);
      clusters := clusters[c.id := info];
    }

    method Renew(c: Cluster, current: ClusterVersion, next: Option<ClusterVersion>)
      requires FiledById(Entries()) && c.id in clusters
      modifies clusters[c.id]
      ensures var e := old(Entries()[c.id]);
        Entries() == old(Entries())[c.id := e.(state := Idle, cluster := c, current := current, next := next)]
    {
      var info := clusters[c.id];
      info.Renew(c, current, next);
      OthersUnchanged(info);
    }

    /** Whatever was written to one entry shows in no other one. */
    twostate lemma OthersUnchanged(info: ClusterInfo)
      requires clusters == old(clusters) && info in clusters.Values && FiledById(old(Entries()))
      requires forall x :: x in clusters.Values && x != info ==> x.View() == old(x.View())
      ensures Entries() == old(Entries())[old(info.cluster.id) := info.View()]
    {
      forall id | id in clusters && id != old(info.cluster.id) ensures clusters[id] != info {
        assert old(Entries())[id].cluster.id == id;
      }
      var id :| id in clusters && clusters[id] == info;
      assert old(Entries())[id].cluster.id == id;
    }

    method Next(c: Cluster, src: Source) returns (next: Option<ClusterVersion>)
      ensures next == NextVersion(c, src)
    {
      match src.resolve(c)
      case None => next := None;
      case Some(config) =>
        var v := Version(c, config, src.sha);
        next := Some(v);
    }
  }

  ghost function AllPrioritised(m: map<string, Entry>): map<string, Entry> {
    map id | id in m :: Prioritised(m[id])
  }

  ghost function PrioritisedBut(m: map<string, Entry>, todo: set<string>): map<string, Entry> {
    map id | id in m :: if id in todo then m[id] else Prioritised(m[id])
  }

  lemma OneMore(m: map<string, Entry>, todo: set<string>, id: string)
    ensures id in m && id in todo ==>
      PrioritisedBut(m, todo)[id := Prioritised(m[id])] == PrioritisedBut(m, todo - {id})
    ensures PrioritisedBut(m, {}) == AllPrioritised(m)
  {
  }

  ghost predicate InSequence(es: seq<Entry>) {
    forall i, j :: 0 <= i < j < |es| ==> NotAfter(es[i], es[j])
  }

  ghost function Views(infos: seq<ClusterInfo>): seq<Entry>
    reads infos
  {
    seq(|infos|, i requires 0 <= i < |infos| reads infos => infos[i].View())
  }

  /** `sort.Slice` by priority, and by age within one priority. */
  method SortPending(infos: seq<ClusterInfo>) returns (r: seq<ClusterInfo>)
    requires Distinct(infos)
    ensures Distinct(r) && Elements(r) == Elements(infos) && InSequence(Views(r))
  {
    r := [];
    for i := 0 to |infos|
      invariant Distinct(r) && Elements(r) == Elements(infos[..i]) && InSequence(Views(r))
    {
      assert infos[..i + 1] == infos[..i] + [infos[i]];
      assert infos[i] !in infos[..i];
      assert infos[i] !in Elements(infos[..i]);
      r := InsertPending(r, infos[i]);
    }
    assert infos[..|infos|] == infos;
  }

  method InsertPending(s: seq<ClusterInfo>, x: ClusterInfo) returns (r: seq<ClusterInfo>)
    requires Distinct(s) && x !in s && InSequence(Views(s))
    ensures Distinct(r) && Elements(r) == Elements(s) + {x} && InSequence(Views(r))
  {
    var i := 0;
    while i < |s| && NotAfter(s[i].View(), x.View())
      invariant 0 <= i <= |s|
      invariant forall j :: 0 <= j < i ==> NotAfter(s[j].View(), x.View())
    {
      i := i + 1;
    }
    r := s[..i] + [x] + s[i..];
    InsertedAt(s, i, x, r);
    assert Views(r) == Views(s)[..i] + [x.View()] + Views(s)[i..];
    InsertedInSequence(Views(s), i, x.View(), Views(r));
  }

  lemma InsertedInSequence(es: seq<Entry>, i: nat, e: Entry, r: seq<Entry>)
    requires InSequence(es) && i <= |es| && r == es[..i] + [e] + es[i..]
    requires forall j :: 0 <= j < i ==> NotAfter(es[j], e)
    requires i < |es| ==> NotAfter(e, es[i])
    ensures InSequence(r)
  {
    assert forall j :: i < j < |es| ==> NotAfter(es[i], es[j]);
    assert forall j :: i <= j < |es| ==> NotAfter(e, es[j]);
    InsertedAt(es, i, e, r);
  }

  lemma UpsertSnoc(m: map<string, Entry>, cs: seq<Cluster>, i: nat, src: Source, allowed: string -> bool)
    requires i < |cs|
    ensures UpsertedAll(m, cs[..i + 1], src, allowed) ==
      Upserted(UpsertedAll(m, cs[..i], src, allowed), cs[i], src, allowed)
  {
    assert cs[..i + 1][..i] == cs[..i];
  }

  lemma ListedSnoc(cs: seq<Cluster>, i: nat, allowed: string -> bool)
    requires i < |cs|
    ensures ListedIds(cs[..i + 1], allowed) ==
      ListedIds(cs[..i], allowed) + if Listed(cs[i], allowed) then {cs[i].id} else {}
  {
    assert cs[..i + 1] == cs[..i] + [cs[i]];
  }

  lemma AbortsSnoc(m: map<string, Entry>, cs: seq<Cluster>, i: nat, src: Source, allowed: string -> bool)
    requires i < |cs| && FiledById(m)
    ensures Aborts(m, cs[..i + 1], allowed) ==
      Aborts(m, cs[..i], allowed) + Aborts(UpsertedAll(m, cs[..i], src, allowed), [cs[i]], allowed)
  {
    UpsertedAllKeeps(m, cs[..i], src, allowed);
    SameAborts(m, UpsertedAll(m, cs[..i], src, allowed), cs[i], allowed);
    assert cs[..i + 1] == cs[..i] + [cs[i]];
    AbortsJoin(m, cs[..i], [cs[i]], allowed);
  }

  lemma AbortsJoin(m: map<string, Entry>, a: seq<Cluster>, b: seq<Cluster>, allowed: string -> bool)
    ensures Aborts(m, a + b, allowed) == Aborts(m, a, allowed) + Aborts(m, b, allowed)
  {
  }

  lemma SameAborts(m: map<string, Entry>, n: map<string, Entry>, c: Cluster, allowed: string -> bool)
    requires SameProcessing(m, n)
    ensures Aborts(m, [c], allowed) == Aborts(n, [c], allowed)
  {
    OneAbort(m, c, allowed);
    OneAbort(n, c, allowed);
  }

  lemma OneAbort(m: map<string, Entry>, c: Cluster, allowed: string -> bool)
    ensures Aborts(m, [c], allowed) ==
      if Listed(c, allowed) && UpdateBlocked(c) && c.id in m && m[c.id].state.Processing? then {m[c.id].cancel} else {}
  {
  }

  ghost function Ids(infos: seq<ClusterInfo>): seq<string>
    reads infos
  {
    seq(|infos|, i requires 0 <= i < |infos| reads infos => infos[i].cluster.id)
  }
}
