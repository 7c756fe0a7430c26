/** The update strategy that leaves the replacement of nodes to another controller: it
    marks outdated nodes until there are none, and takes the marks back when it is
    cancelled. */
module ClcUpdates {
  import opened Options
  import opened NodeLabels

  const ROLLBACK_RETRIES := 10

  datatype PoolNode = PoolNode(name: string, generation: int, copy: NodeObject)

  datatype PoolSnapshot = PoolSnapshot(generation: int, nodes: seq<PoolNode>)

  predicate Outdated(n: PoolNode, pool: PoolSnapshot) {
    n.generation != pool.generation
  }

  /** A member of the pool that is not of its current generation. */
  ghost predicate OutdatedIn(pool: Membership, name: string) {
    name in pool.members && pool.members[name] != pool.generation
  }

  /** The nodes that were outdated members of the pool at some moment. */
  ghost function EverOutdated(history: seq<Store>, from: nat): iset<string> {
    iset name | WasOutdated(name, history, from)
  }

  ghost predicate WasOutdated(name: string, history: seq<Store>, from: nat) {
    exists at :: from <= at < |history| && OutdatedIn(history[at].pool, name)
  }

  lemma EverLater(history: seq<Store>, later: seq<Store>, from: nat, since: nat)
    requires history <= later && since <= from
    ensures EverOutdated(history, from) <= EverOutdated(later, since)
  {
    forall name | name in EverOutdated(history, from) ensures name in EverOutdated(later, since) {
      var at :| from <= at < |history| && OutdatedIn(history[at].pool, name);
      assert since <= at < |later| && OutdatedIn(later[at].pool, name);
    }
  }

  ghost function OutdatedNames(snapshot: PoolSnapshot): iset<string> {
    iset n | n in snapshot.nodes && Outdated(n, snapshot) :: n.name
  }

  lemma NamesOutdated(snapshot: PoolSnapshot, s: Store, history: seq<Store>, at: nat, from: nat)
    requires from <= at < |history| && SnapshotOf(snapshot, history[at].pool, s)
    ensures OutdatedNames(snapshot) <= EverOutdated(history, from)
  {
    forall n | n in snapshot.nodes && Outdated(n, snapshot) ensures n.name in EverOutdated(history, from) {
      assert Taken(n, history[at].pool, s) && OutdatedIn(history[at].pool, n.name);
    }
  }

  /** The snapshot has the members of the pool that are in the store, all of them, with
      copies as they are in the store. */
  ghost predicate SnapshotOf(snapshot: PoolSnapshot, pool: Membership, s: Store) {
    && snapshot.generation == pool.generation
    && (forall n :: n in snapshot.nodes ==> Taken(n, pool, s))
    && (forall name :: name in pool.members && name in s.nodes ==> exists n :: n in snapshot.nodes && n.name == name)
  }

  ghost predicate Taken(n: PoolNode, pool: Membership, s: Store) {
    n.name in pool.members && n.generation == pool.members[n.name] && n.name in s.nodes && s.nodes[n.name] == n.copy
  }

  /** None of the outdated members is in the store. */
  ghost predicate NoneOutdated(pool: Membership, s: Store) {
    forall name :: OutdatedIn(pool, name) ==> name !in s.nodes
  }

  /** None of the outdated members is marked in the store. */
  ghost predicate NoneMarked(pool: Membership, s: Store) {
    forall name :: OutdatedIn(pool, name) && name in s.nodes ==> !Pending(s.nodes[name])
  }

  /** `GetPool`: the members of the pool at one moment, of those the ones that Kubernetes
      lists later. */
  method GetPool(server: ApiServer) returns (r: Option<PoolSnapshot>, ghost at: nat)
    requires server.Valid()
    modifies server`store, server`history
    ensures server.Valid() && Passes(old(server.store), server.store, server.quiet)
    ensures old(server.history) <= server.history
    ensures |old(server.history)| <= at < |server.history| && Passes(server.history[at], server.store, server.quiet)
    ensures r.Some? ==> SnapshotOf(r.value, server.history[at].pool, server.store)
    ensures server.calm ==> r.Some? && server.store == old(server.store) && server.history[at].pool == server.store.pool
  {
    server.Interfere();
    ghost var mid := server.store;
    at := |server.history| - 1;
    var pool := server.store.pool;
    server.Interfere();
    LaterTransitive(old(server.store), mid, server.store);
    var failed := server.Fault();
    if failed {
      return None, at;
    }
    var snapshot := Join(pool, server.store);
    r := Some(snapshot);
  }

  method Join(pool: Membership, s: Store) returns (snapshot: PoolSnapshot)
    ensures SnapshotOf(snapshot, pool, s)
  {
    var todo := pool.members.Keys;
    var nodes: seq<PoolNode> := [];
    while todo != {}
      invariant todo <= pool.members.Keys
      invariant forall n :: n in nodes ==> Taken(n, pool, s)
      invariant forall name :: name in pool.members && name !in todo && name in s.nodes ==>
        exists n :: n in nodes && n.name == name
    {
      var name :| name in todo;
      todo := todo - {name};
      if name in s.nodes {
        ghost var before := nodes;
        var node := PoolNode(name, pool.members[name], s.nodes[name]);
        nodes := nodes + [node];
        assert node in nodes;
        assert forall n :: n in before ==> n in nodes;
      }
    }
    snapshot := PoolSnapshot(pool.generation, nodes);
  }

  function CountOutdated(pool: PoolSnapshot, k: nat): nat
    requires k <= |pool.nodes|
  {
    if k == 0 then 0 else CountOutdated(pool, k - 1) + if Outdated(pool.nodes[k - 1], pool) then 1 else 0
  }

  lemma {:induction false} CountedNone(pool: PoolSnapshot, k: nat)
    requires k <= |pool.nodes|
    ensures CountOutdated(pool, k) == 0 <==> forall i :: 0 <= i < k ==> !Outdated(pool.nodes[i], pool)
  {
    if k > 0 {
      CountedNone(pool, k - 1);
    }
  }

  /** Some time since a moment the node was no longer `ready`. */
  ghost predicate WasMarked(n: PoolNode, history: seq<Store>, from: nat) {
    exists at :: Had(PendingMark(), n.name, n.copy, history, from, at)
  }

  ghost predicate AllMarked(pool: PoolSnapshot, k: nat, history: seq<Store>, from: nat)
    requires k <= |pool.nodes|
  {
    forall i :: 0 <= i < k && Outdated(pool.nodes[i], pool) ==> WasMarked(pool.nodes[i], history, from)
  }

  lemma MarkedLater(pool: PoolSnapshot, k: nat, history: seq<Store>, later: seq<Store>, from: nat)
    requires k <= |pool.nodes| && AllMarked(pool, k, history, from) && history <= later
    ensures AllMarked(pool, k, later, from)
  {
    forall i | 0 <= i < k && Outdated(pool.nodes[i], pool) ensures WasMarked(pool.nodes[i], later, from) {
      var n := pool.nodes[i];
      var at :| Had(PendingMark(), n.name, n.copy, history, from, at);
      assert Had(PendingMark(), n.name, n.copy, later, from, at);
    }
  }

  /** The copies of a snapshot are as in the store. */
  ghost predicate Current(pool: PoolSnapshot, s: Store) {
    forall n :: n in pool.nodes ==> n.name in s.nodes && s.nodes[n.name] == n.copy
  }

  lemma SnapshotCurrent(pool: PoolSnapshot, members: Membership, s: Store)
    requires SnapshotOf(pool, members, s)
    ensures Current(pool, s)
  {
    assert forall n :: n in pool.nodes ==> Taken(n, members, s);
  }

  /** When nobody interferes: the first k nodes of the snapshot that are outdated are marked,
      and no node that is not outdated is touched. */
  ghost predicate MarkedSoFar(pool: PoolSnapshot, k: nat, s: Store, t: Store, effect: string)
    requires k <= |pool.nodes|
  {
    && t.nodes.Keys == s.nodes.Keys && t.pool == s.pool
    && (forall i :: 0 <= i < k && Outdated(pool.nodes[i], pool) && pool.nodes[i].name in t.nodes ==>
          MarkedFrom(pool.nodes[i].copy, pool.nodes[i].copy, t.nodes[pool.nodes[i].name], effect))
    && (forall name :: name in s.nodes ==>
          || t.nodes[name] == s.nodes[name]
          || (name in OutdatedNames(pool) && MarkedFrom(s.nodes[name], s.nodes[name], t.nodes[name], effect)))
  }

  lemma MarkedNext(pool: PoolSnapshot, k: nat, s: Store, mid: Store, t: Store, effect: string)
    requires k < |pool.nodes| && Outdated(pool.nodes[k], pool) && Current(pool, s)
    requires MarkedSoFar(pool, k, s, mid, effect)
    requires var n := pool.nodes[k];
      && OthersKept(mid, t, n.name) && n.name in mid.nodes
      && MarkedFrom(n.copy, mid.nodes[n.name], t.nodes[n.name], effect)
    ensures MarkedSoFar(pool, k + 1, s, t, effect)
  {
    var n := pool.nodes[k];
    assert n in pool.nodes && n.name in OutdatedNames(pool);
    assert MarkedFrom(n.copy, n.copy, t.nodes[n.name], effect);
    forall i | 0 <= i < k && Outdated(pool.nodes[i], pool) && pool.nodes[i].name in t.nodes
      ensures MarkedFrom(pool.nodes[i].copy, pool.nodes[i].copy, t.nodes[pool.nodes[i].name], effect)
    {
      assert pool.nodes[i] in pool.nodes;
    }
  }

  /** What marking makes of the whole store when nobody interferes: outdated members are
      marked, and everything else is as it was. */
  ghost predicate PoolMarks(s: Store, t: Store, effect: string) {
    && t.nodes.Keys == s.nodes.Keys && t.pool == s.pool
    && forall name :: name in s.nodes ==>
         if OutdatedIn(s.pool, name) then MarkedFrom(s.nodes[name], s.nodes[name], t.nodes[name], effect)
         else t.nodes[name] == s.nodes[name]
  }

  lemma PoolMarksAll(snapshot: PoolSnapshot, s: Store, t: Store, effect: string)
    requires SnapshotOf(snapshot, s.pool, s) && MarkedSoFar(snapshot, |snapshot.nodes|, s, t, effect)
    ensures PoolMarks(s, t, effect)
  {
    assert forall n :: n in snapshot.nodes ==> Taken(n, s.pool, s);
    forall name | name in s.nodes
      ensures if OutdatedIn(s.pool, name) then MarkedFrom(s.nodes[name], s.nodes[name], t.nodes[name], effect)
              else t.nodes[name] == s.nodes[name]
    {
      if OutdatedIn(s.pool, name) {
        var n :| n in snapshot.nodes && n.name == name;
        assert Taken(n, s.pool, s);
        var i :| 0 <= i < |snapshot.nodes| && snapshot.nodes[i] == n;
        assert Outdated(snapshot.nodes[i], snapshot);
      }
    }
  }

  lemma PoolMarksJoin(s: Store, t: Store, u: Store, effect: string)
    requires PoolMarks(s, t, effect) && PoolMarks(t, u, effect)
    ensures PoolMarks(s, u, effect)
  {
  }

  /** `markNodes` on the outdated nodes: all of them were marked, and counted; and no other
      node was written to. */
  method MarkNodes(server: ApiServer, pool: PoolSnapshot, effect: string) returns (r: Option<nat>)
    requires server.Valid()
    modifies server
    ensures server.Valid() && Later(old(server.store), server.store) && old(server.history) <= server.history
    ensures Marking(old(server.writes), server.writes, OutdatedNames(pool))
    ensures r.Some? ==> r.value == CountOutdated(pool, |pool.nodes|)
    ensures r.Some? ==> AllMarked(pool, |pool.nodes|, server.history, |old(server.history)|)
    ensures server.calm && Current(pool, old(server.store)) ==>
      r.Some? && MarkedSoFar(pool, |pool.nodes|, old(server.store), server.store, effect)
  {
    ghost var past, writes, from := server.store, server.writes, |server.history|;
    var marked: nat := 0;
    for i := 0 to |pool.nodes|
      invariant server.Valid() && Later(past, server.store) && old(server.history) <= server.history
      invariant Marking(writes, server.writes, OutdatedNames(pool))
      invariant marked == CountOutdated(pool, i) && AllMarked(pool, i, server.history, from)
      invariant server.calm && Current(pool, past) ==> MarkedSoFar(pool, i, past, server.store, effect)
    {
      var ok, outdated := MarkOutdated(server, pool, i, effect, past, from, writes);
      if !ok {
        return None;
      }
      marked := marked + if outdated then 1 else 0;
    }
    return Some(marked);
  }

  /** The i-th node of the snapshot, if it is outdated. */
  method MarkOutdated(server: ApiServer, pool: PoolSnapshot, i: nat, effect: string, ghost past: Store,
                      ghost from: nat, ghost writes: seq<Write>) returns (ok: bool, outdated: bool)
    requires server.Valid() && i < |pool.nodes|
    requires Later(past, server.store) && Marking(writes, server.writes, OutdatedNames(pool))
    requires from <= |server.history| && AllMarked(pool, i, server.history, from)
    requires server.calm && Current(pool, past) ==> MarkedSoFar(pool, i, past, server.store, effect)
    modifies server
    ensures server.Valid() && Later(past, server.store) && old(server.history) <= server.history
    ensures Marking(writes, server.writes, OutdatedNames(pool)) && (outdated <==> Outdated(pool.nodes[i], pool))
    ensures ok ==> AllMarked(pool, i + 1, server.history, from)
    ensures server.calm && Current(pool, past) ==> ok && MarkedSoFar(pool, i + 1, past, server.store, effect)
  {
    ok, outdated := true, Outdated(pool.nodes[i], pool);
    if outdated {
      ok := Mark(server, pool.nodes[i], effect, past, pool, i, from, writes);
    }
  }

  method Mark(server: ApiServer, node: PoolNode, effect: string, ghost past: Store, ghost pool: PoolSnapshot,
              ghost i: nat, ghost from: nat, ghost writes: seq<Write>) returns (ok: bool)
    requires server.Valid() && i < |pool.nodes| && node == pool.nodes[i] && Outdated(node, pool)
    requires Later(past, server.store) && Marking(writes, server.writes, OutdatedNames(pool))
    requires from <= |server.history| && AllMarked(pool, i, server.history, from)
    requires server.calm && Current(pool, past) ==> MarkedSoFar(pool, i, past, server.store, effect)
    modifies server
    ensures server.Valid() && Later(past, server.store) && old(server.history) <= server.history
    ensures Marking(writes, server.writes, OutdatedNames(pool))
    ensures ok ==> AllMarked(pool, i + 1, server.history, from)
    ensures server.calm && Current(pool, past) ==> ok && MarkedSoFar(pool, i + 1, past, server.store, effect)
  {
    assert node in pool.nodes && node.name in OutdatedNames(pool);
    ghost var tainted, mark;
    ok, tainted, mark := MarkNodeForDecommission(server, node.name, node.copy, effect);
    LaterTransitive(past, old(server.store), server.store);
    MarkingWider(writes, old(server.writes), server.writes, node.name, OutdatedNames(pool));
    if server.calm && Current(pool, past) {
      MarkedNext(pool, i, past, old(server.store), server.store, effect);
    }
    if ok {
      MarkedLater(pool, i, old(server.history), server.history, from);
      assert Had(PendingMark(), node.name, node.copy, server.history, from, mark);
    }
  }

  lemma MarkingWider(a: seq<Write>, b: seq<Write>, c: seq<Write>, name: string, targets: iset<string>)
    requires name in targets
    ensures Marking(a, b, targets) && Marking(b, c, iset{name}) ==> Marking(a, c, targets)
    ensures Unmarking(a, b, targets) && Unmarking(b, c, iset{name}) ==> Unmarking(a, c, targets)
  {
    if a <= b && b <= c {
      assert forall i :: 0 <= i < |b| ==> b[i] == c[i];
    }
  }

  datatype Outcome = Updated | Cancelled | Error

  /** A snapshot is without outdated nodes exactly if it is one of a pool without any in the
      store. */
  lemma NothingLeft(snapshot: PoolSnapshot, pool: Membership, s: Store)
    requires SnapshotOf(snapshot, pool, s)
    ensures CountOutdated(snapshot, |snapshot.nodes|) == 0 <==> NoneOutdated(pool, s)
  {
    CountedNone(snapshot, |snapshot.nodes|);
    if CountOutdated(snapshot, |snapshot.nodes|) == 0 {
      forall name | name in pool.members && name in s.nodes ensures pool.members[name] == pool.generation {
        var n :| n in snapshot.nodes && n.name == name;
        assert Taken(n, pool, s);
        var i :| 0 <= i < |snapshot.nodes| && snapshot.nodes[i] == n;
        assert !Outdated(snapshot.nodes[i], snapshot);
      }
    } else {
      var i :| 0 <= i < |snapshot.nodes| && Outdated(snapshot.nodes[i], snapshot);
      var n := snapshot.nodes[i];
      assert n in snapshot.nodes && Taken(n, pool, s);
      assert OutdatedIn(pool, n.name);
    }
  }

  /** The outdated members of the pool that were listed have all been marked since. */
  ghost predicate PoolMarked(pool: Membership, listed: Store, history: seq<Store>, from: nat) {
    forall name :: OutdatedIn(pool, name) && name in listed.nodes ==>
      exists at :: Had(PendingMark(), name, listed.nodes[name], history, from, at)
  }

  lemma MarkedPool(snapshot: PoolSnapshot, pool: Membership, s: Store, history: seq<Store>, k: nat, from: nat)
    requires SnapshotOf(snapshot, pool, s) && AllMarked(snapshot, |snapshot.nodes|, history, k) && from <= k
    ensures PoolMarked(pool, s, history, from)
  {
    forall name | OutdatedIn(pool, name) && name in s.nodes
      ensures exists at :: Had(PendingMark(), name, s.nodes[name], history, from, at)
    {
      var n :| n in snapshot.nodes && n.name == name;
      assert Taken(n, pool, s);
      var i :| 0 <= i < |snapshot.nodes| && snapshot.nodes[i] == n;
      assert Outdated(snapshot.nodes[i], snapshot) && WasMarked(n, history, k);
      var at :| Had(PendingMark(), name, n.copy, history, k, at);
      assert Had(PendingMark(), name, s.nodes[name], history, from, at);
    }
  }

  /** `doUpdate`, with a context that is cancelled after a number of polls. Unless something
      fails, all outdated members of the pool that were last listed have been marked; and it
      finishes exactly when none was listed. Nothing but outdated members is marked. */
  method DoUpdate(server: ApiServer, effect: string, polls: nat) returns (r: Outcome, ghost at: nat, ghost listed: nat)
    requires server.Valid()
    modifies server
    ensures server.Valid() && old(server.history) <= server.history
    ensures Marking(old(server.writes), server.writes, EverOutdated(server.history, |old(server.history)|))
    ensures r.Updated? || (r.Cancelled? && polls > 0) ==>
      && |old(server.history)| <= at <= listed < |server.history|
      && PoolMarked(server.history[at].pool, server.history[listed], server.history, |old(server.history)|)
      && (r.Updated? <==> NoneOutdated(server.history[at].pool, server.history[listed]))
    ensures (r.Updated? ==> polls > 0) && (server.calm ==> !r.Error?)
    ensures server.calm ==>
      if polls > 0 then PoolMarks(old(server.store), server.store, effect) else server.store == old(server.store)
  {
    at, listed := 0, 0;
    for poll := 0 to polls
      invariant server.Valid() && old(server.history) <= server.history
      invariant Marking(old(server.writes), server.writes, EverOutdated(server.history, |old(server.history)|))
      invariant poll > 0 ==>
        && |old(server.history)| <= at <= listed < |server.history|
        && PoolMarked(server.history[at].pool, server.history[listed], server.history, |old(server.history)|)
        && !NoneOutdated(server.history[at].pool, server.history[listed])
      invariant server.calm ==>
        if poll > 0 then PoolMarks(old(server.store), server.store, effect) else server.store == old(server.store)
    {
      ghost var writes, before, history := server.writes, server.store, server.history;
      var marked;
      marked, at, listed := OnePoll(server, effect, |old(server.history)|);
      PollJoin(old(server.writes), writes, server.writes, history, server.history, |old(server.history)|);
      if server.calm && poll > 0 {
        PoolMarksJoin(old(server.store), before, server.store, effect);
      }
      if marked.None? {
        return Error, at, listed;
      }
      if marked.value == 0 {
        return Updated, at, listed;
      }
    }
    return Cancelled, at, listed;
  }

  lemma PollJoin(a: seq<Write>, b: seq<Write>, c: seq<Write>, history: seq<Store>, later: seq<Store>, from: nat)
    requires history <= later
    ensures Marking(a, b, EverOutdated(history, from)) && Marking(b, c, EverOutdated(later, from)) ==>
      Marking(a, c, EverOutdated(later, from))
  {
    EverLater(history, later, from, from);
    MarkingJoin(a, b, c, EverOutdated(history, from), EverOutdated(later, from));
  }

  /** Fetches the pool and marks its outdated nodes. */
  method OnePoll(server: ApiServer, effect: string, ghost from: nat)
    returns (marked: Option<nat>, ghost at: nat, ghost listed: nat)
    requires server.Valid() && from <= |server.history|
    modifies server
    ensures server.Valid() && old(server.history) <= server.history
    ensures Marking(old(server.writes), server.writes, EverOutdated(server.history, from))
    ensures marked.Some? ==>
      && |old(server.history)| <= at <= listed < |server.history|
      && PoolMarked(server.history[at].pool, server.history[listed], server.history, from)
      && (marked.value == 0 <==> NoneOutdated(server.history[at].pool, server.history[listed]))
    ensures server.calm ==> marked.Some? && PoolMarks(old(server.store), server.store, effect)
  {
    var pool;
    pool, at := GetPool(server);
    listed := |server.history| - 1;
    if pool.None? {
      return None, at, listed;
    }
    ghost var members, store := server.history[at].pool, server.store;
    SnapshotCurrent(pool.value, members, store);
    marked := MarkNodes(server, pool.value, effect);
    PollMarks(pool.value, at, listed, server.history, from, old(server.writes), server.writes, marked.Some?);
    if server.calm {
      PoolMarksAll(pool.value, store, server.store, effect);
    }
  }

  lemma PollMarks(pool: PoolSnapshot, at: nat, listed: nat, history: seq<Store>, from: nat,
                  before: seq<Write>, after: seq<Write>, ok: bool)
    requires from <= at <= listed < |history| && SnapshotOf(pool, history[at].pool, history[listed])
    requires ok ==> AllMarked(pool, |pool.nodes|, history, listed + 1)
    ensures Marking(before, after, OutdatedNames(pool)) ==> Marking(before, after, EverOutdated(history, from))
    ensures ok ==> PoolMarked(history[at].pool, history[listed], history, from)
    ensures CountOutdated(pool, |pool.nodes|) == 0 <==> NoneOutdated(history[at].pool, history[listed])
  {
    NothingLeft(pool, history[at].pool, history[listed]);
    NamesOutdated(pool, history[listed], history, at, from);
    MarkingSubset(before, after, OutdatedNames(pool), EverOutdated(history, from));
    if ok {
      MarkedPool(pool, history[at].pool, history[listed], history, listed + 1, from);
    }
  }

  lemma MarkingSubset(a: seq<Write>, b: seq<Write>, some: iset<string>, targets: iset<string>)
    requires some <= targets
    ensures Marking(a, b, some) ==> Marking(a, b, targets)
    ensures Unmarking(a, b, some) ==> Unmarking(a, b, targets)
  {
  }

  /** Nothing outdated among the first k nodes of the snapshot is marked. */
  ghost predicate Unmarked(snapshot: PoolSnapshot, k: nat, s: Store)
    requires k <= |snapshot.nodes|
  {
    forall i :: 0 <= i < k && Outdated(snapshot.nodes[i], snapshot) ==>
      snapshot.nodes[i].name !in s.nodes || !Pending(s.nodes[snapshot.nodes[i].name])
  }

  /** What is not marked in the snapshot is not marked in the pool: members that were not
      listed have come later, without a mark. */
  lemma UnmarkedPool(snapshot: PoolSnapshot, pool: Membership, s: Store, t: Store)
    requires SnapshotOf(snapshot, pool, s) && NoMarks(s, t) && Unmarked(snapshot, |snapshot.nodes|, t)
    ensures NoneMarked(pool, t)
  {
    forall name | OutdatedIn(pool, name) && name in t.nodes ensures !Pending(t.nodes[name]) {
      if name in s.nodes {
        var n :| n in snapshot.nodes && n.name == name;
        assert Taken(n, pool, s);
        var i :| 0 <= i < |snapshot.nodes| && snapshot.nodes[i] == n;
        assert Outdated(snapshot.nodes[i], snapshot);
      }
    }
  }

  /** Every outdated member that was listed is there and not marked, at some moment since. */
  ghost predicate PoolReleased(pool: Membership, listed: nat, history: seq<Store>)
    requires listed < |history|
  {
    forall name :: OutdatedIn(pool, name) && name in history[listed].nodes ==>
      exists m :: listed <= m < |history| && UnmarkedAt(history[m], name)
  }

  /** The first k nodes of the snapshot that are outdated have been released. */
  ghost predicate AllReleased(snapshot: PoolSnapshot, k: nat, history: seq<Store>, from: nat)
    requires k <= |snapshot.nodes|
  {
    forall i :: 0 <= i < k && Outdated(snapshot.nodes[i], snapshot) ==>
      Released(snapshot.nodes[i].name, snapshot.nodes[i].copy, history, from)
  }

  lemma ReleasedLater(name: string, copy: NodeObject, history: seq<Store>, k: nat, later: seq<Store>, from: nat)
    requires Released(name, copy, history, k) && history <= later && from <= k
    ensures Released(name, copy, later, from)
  {
    if Pending(copy) {
      var m :| k <= m < |history| && UnmarkedAt(history[m], name);
      assert from <= m < |later| && UnmarkedAt(later[m], name);
    }
  }

  lemma AllReleasedLater(snapshot: PoolSnapshot, k: nat, history: seq<Store>, later: seq<Store>, from: nat)
    requires k <= |snapshot.nodes| && AllReleased(snapshot, k, history, from) && history <= later
    ensures AllReleased(snapshot, k, later, from)
  {
    forall i | 0 <= i < k && Outdated(snapshot.nodes[i], snapshot)
      ensures Released(snapshot.nodes[i].name, snapshot.nodes[i].copy, later, from)
    {
      ReleasedLater(snapshot.nodes[i].name, snapshot.nodes[i].copy, history, from, later, from);
    }
  }

  lemma ReleasedPool(snapshot: PoolSnapshot, pool: Membership, listed: nat, history: seq<Store>)
    requires listed < |history| && SnapshotOf(snapshot, pool, history[listed])
    requires AllReleased(snapshot, |snapshot.nodes|, history, listed)
    ensures PoolReleased(pool, listed, history)
  {
    forall name | OutdatedIn(pool, name) && name in history[listed].nodes
      ensures exists m :: listed <= m < |history| && UnmarkedAt(history[m], name)
    {
      var n :| n in snapshot.nodes && n.name == name;
      assert Taken(n, pool, history[listed]);
      var i :| 0 <= i < |snapshot.nodes| && snapshot.nodes[i] == n;
      assert Outdated(snapshot.nodes[i], snapshot);
      assert Released(snapshot.nodes[i].name, snapshot.nodes[i].copy, history, listed);
      if !Pending(n.copy) {
        assert UnmarkedAt(history[listed], name);
      }
    }
  }

  /** When nobody interferes: the marks of the first k nodes of the snapshot that are outdated
      are taken back, and no node that is not outdated is touched. */
  ghost predicate ReadySoFar(pool: PoolSnapshot, k: nat, s: Store, t: Store)
    requires k <= |pool.nodes|
  {
    && t.nodes.Keys == s.nodes.Keys && t.pool == s.pool
    && (forall i :: 0 <= i < k && Outdated(pool.nodes[i], pool) && pool.nodes[i].name in t.nodes ==>
          ReadyFrom(pool.nodes[i].copy, pool.nodes[i].copy, t.nodes[pool.nodes[i].name]))
    && (forall name :: name in s.nodes ==>
          || t.nodes[name] == s.nodes[name]
          || (name in OutdatedNames(pool) && ReadyFrom(s.nodes[name], s.nodes[name], t.nodes[name])))
  }

  lemma ReadyNext(pool: PoolSnapshot, k: nat, s: Store, mid: Store, t: Store)
    requires k < |pool.nodes| && Outdated(pool.nodes[k], pool) && Current(pool, s) && ReadySoFar(pool, k, s, mid)
    requires var n := pool.nodes[k];
      && OthersKept(mid, t, n.name) && n.name in mid.nodes
      && ReadyFrom(n.copy, mid.nodes[n.name], t.nodes[n.name])
    ensures ReadySoFar(pool, k + 1, s, t)
  {
    var n := pool.nodes[k];
    assert n in pool.nodes && n.name in OutdatedNames(pool);
    assert ReadyFrom(n.copy, n.copy, t.nodes[n.name]);
    forall i | 0 <= i < k && Outdated(pool.nodes[i], pool) && pool.nodes[i].name in t.nodes
      ensures ReadyFrom(pool.nodes[i].copy, pool.nodes[i].copy, t.nodes[pool.nodes[i].name])
    {
      assert pool.nodes[i] in pool.nodes;
    }
  }

  /** What a rollback makes of the whole store when nobody interferes: marked outdated members
      are `ready`, and everything else is as it was. */
  ghost predicate PoolReady(s: Store, t: Store) {
    && t.nodes.Keys == s.nodes.Keys && t.pool == s.pool
    && forall name :: name in s.nodes ==>
         if OutdatedIn(s.pool, name) then ReadyFrom(s.nodes[name], s.nodes[name], t.nodes[name])
         else t.nodes[name] == s.nodes[name]
  }

  lemma PoolReadyAll(snapshot: PoolSnapshot, s: Store, t: Store)
    requires SnapshotOf(snapshot, s.pool, s) && ReadySoFar(snapshot, |snapshot.nodes|, s, t)
    ensures PoolReady(s, t)
  {
    assert forall n :: n in snapshot.nodes ==> Taken(n, s.pool, s);
    forall name | name in s.nodes
      ensures if OutdatedIn(s.pool, name) then ReadyFrom(s.nodes[name], s.nodes[name], t.nodes[name])
              else t.nodes[name] == s.nodes[name]
    {
      if OutdatedIn(s.pool, name) {
        var n :| n in snapshot.nodes && n.name == name;
        assert Taken(n, s.pool, s);
        var i :| 0 <= i < |snapshot.nodes| && snapshot.nodes[i] == n;
        assert Outdated(snapshot.nodes[i], snapshot);
      }
    }
  }

  /** `rollbackUpdate`: if it succeeds, then none of the outdated members of the pool that it
      listed has stayed marked throughout, whatever others write; and if marking is left to
      this program, none that was an outdated member when it fetched the pool is marked. */
  method RollbackUpdate(server: ApiServer) returns (ok: bool, ghost at: nat, ghost listed: nat)
    requires server.Valid()
    modifies server
    ensures server.Valid() && old(server.history) <= server.history
    ensures Unmarking(old(server.writes), server.writes, EverOutdated(server.history, |old(server.history)|))
    ensures Passes(old(server.store), server.store, server.quiet)
    ensures ok ==>
      && |old(server.history)| <= at <= listed < |server.history|
      && PoolReleased(server.history[at].pool, listed, server.history)
    ensures ok && server.quiet ==> TakenBack(server.history[at], server.store)
    ensures server.calm ==> ok && PoolReady(old(server.store), server.store)
  {
    var r;
    r, at := GetPool(server);
    listed := |server.history| - 1;
    if r.None? {
      return false, at, listed;
    }
    ghost var past := server.store;
    ok := ReleaseAll(server, r.value, server.history[at]);
    LaterTransitive(old(server.store), past, server.store);
    NamesOutdated(r.value, past, server.history, at, |old(server.history)|);
    MarkingSubset(old(server.writes), server.writes, OutdatedNames(r.value),
                  EverOutdated(server.history, |old(server.history)|));
    if server.calm {
      PoolReadyAll(r.value, past, server.store);
    }
    if ok {
      ReleasedPool(r.value, server.history[at].pool, listed, server.history);
    }
  }

  /** None of the outdated members of the pool at one moment is marked later, and nothing was
      marked in between. */
  ghost predicate TakenBack(fetched: Store, now: Store) {
    NoneMarked(fetched.pool, now) && NoMarks(fetched, now)
  }

  /** Takes the marks back from the outdated nodes of a snapshot that was just made. */
  method ReleaseAll(server: ApiServer, pool: PoolSnapshot, ghost fetched: Store) returns (ok: bool)
    requires server.Valid() && SnapshotOf(pool, fetched.pool, server.store)
    requires Passes(fetched, server.store, server.quiet)
    modifies server
    ensures server.Valid() && old(server.history) <= server.history
    ensures Unmarking(old(server.writes), server.writes, OutdatedNames(pool))
    ensures Passes(old(server.store), server.store, server.quiet)
    ensures ok ==> AllReleased(pool, |pool.nodes|, server.history, |old(server.history)| - 1)
    ensures ok && server.quiet ==> TakenBack(fetched, server.store)
    ensures server.calm ==> ok && ReadySoFar(pool, |pool.nodes|, old(server.store), server.store)
  {
    ghost var past := server.store;
    SnapshotCurrent(pool, fetched.pool, past);
    ok := ReleaseNodes(server, pool);
    if ok && server.quiet {
      LaterTransitive(fetched, past, server.store);
      UnmarkedPool(pool, fetched.pool, past, server.store);
    }
  }

  method ReleaseNodes(server: ApiServer, pool: PoolSnapshot) returns (ok: bool)
    requires server.Valid() && Current(pool, server.store)
    modifies server
    ensures server.Valid() && old(server.history) <= server.history
    ensures Unmarking(old(server.writes), server.writes, OutdatedNames(pool))
    ensures Passes(old(server.store), server.store, server.quiet)
    ensures ok ==> AllReleased(pool, |pool.nodes|, server.history, |old(server.history)| - 1)
    ensures ok && server.quiet ==> Unmarked(pool, |pool.nodes|, server.store)
    ensures server.calm ==> ok && ReadySoFar(pool, |pool.nodes|, old(server.store), server.store)
  {
    ghost var past, writes, from := server.store, server.writes, |server.history| - 1;
    for i := 0 to |pool.nodes|
      invariant server.Valid() && old(server.history) <= server.history
      invariant Unmarking(writes, server.writes, OutdatedNames(pool))
      invariant Passes(past, server.store, server.quiet)
      invariant AllReleased(pool, i, server.history, from) && (server.quiet ==> Unmarked(pool, i, server.store))
      invariant server.calm ==> ReadySoFar(pool, i, past, server.store)
    {
      var node := pool.nodes[i];
      if Outdated(node, pool) {
        ok := Abort(server, node, past, pool, i, from, writes);
        if !ok {
          return;
        }
      }
    }
    ok := true;
  }

  /** The i-th node of the snapshot. */
  method Abort(server: ApiServer, node: PoolNode, ghost past: Store, ghost pool: PoolSnapshot, ghost i: nat,
               ghost from: nat, ghost writes: seq<Write>) returns (ok: bool)
    requires server.Valid() && i < |pool.nodes| && node == pool.nodes[i] && from <= |server.history|
    requires Outdated(node, pool) && Current(pool, past) && Passes(past, server.store, server.quiet)
    requires Unmarking(writes, server.writes, OutdatedNames(pool))
    requires AllReleased(pool, i, server.history, from) && (server.quiet ==> Unmarked(pool, i, server.store))
    requires server.calm ==> ReadySoFar(pool, i, past, server.store)
    modifies server
    ensures server.Valid() && Passes(past, server.store, server.quiet) && old(server.history) <= server.history
    ensures Unmarking(writes, server.writes, OutdatedNames(pool))
    ensures ok ==>
      AllReleased(pool, i + 1, server.history, from) && (server.quiet ==> Unmarked(pool, i + 1, server.store))
    ensures server.calm ==> ok && ReadySoFar(pool, i + 1, past, server.store)
  {
    assert node in pool.nodes && node.name in OutdatedNames(pool);
    ok := AbortNodeDecommissioning(server, node.name, node.copy, past);
    LaterTransitive(past, old(server.store), server.store);
    MarkingWider(writes, old(server.writes), server.writes, node.name, OutdatedNames(pool));
    AllReleasedLater(pool, i, old(server.history), server.history, from);
    if server.calm {
      ReadyNext(pool, i, past, old(server.store), server.store);
    }
    if ok {
      ReleasedLater(node.name, node.copy, server.history, |old(server.history)|, server.history, from);
    }
  }

  lemma PoolMarkedLater(pool: Membership, listed: Store, history: seq<Store>, later: seq<Store>, from: nat)
    requires PoolMarked(pool, listed, history, from) && history <= later
    ensures PoolMarked(pool, listed, later, from)
  {
    forall name | OutdatedIn(pool, name) && name in listed.nodes
      ensures exists at :: Had(PendingMark(), name, listed.nodes[name], later, from, at)
    {
      var at :| Had(PendingMark(), name, listed.nodes[name], history, from, at);
      assert Had(PendingMark(), name, listed.nodes[name], later, from, at);
    }
  }

  /** Where a run and its rollback have fetched the pool, and listed its nodes, last. */
  datatype Moments = Moments(at: nat, listed: nat)

  /** The latest writes move nodes among the given ones from `ready` to the mark or back, and
      leave every other lifecycle status alone. */
  ghost predicate Switching(before: seq<Write>, after: seq<Write>, targets: iset<string>) {
    && DrainingKept(before, after)
    && forall i :: |before| <= i < |after| ==>
         (MarkWrite(after[i]) || UnmarkWrite(after[i])) && after[i].name in targets
  }

  lemma SwitchingJoin(a: seq<Write>, b: seq<Write>, c: seq<Write>, history: seq<Store>, later: seq<Store>, from: nat)
    requires history <= later && from <= |history|
    ensures Marking(a, b, EverOutdated(history, from)) && Unmarking(b, c, EverOutdated(later, |history|)) ==>
      Switching(a, c, EverOutdated(later, from))
  {
    EverLater(history, later, from, from);
    EverLater(later, later, |history|, from);
    if a <= b && b <= c {
      assert forall i :: 0 <= i < |b| ==> b[i] == c[i];
    }
  }

  /** What an update that was cancelled and rolled back makes of the whole store when nobody
      interferes: outdated members that were `ready`, marked, or without a lifecycle status are
      `ready`, and others have the status that they had. The taint of the marking stays. */
  ghost predicate PoolReturned(s: Store, t: Store, effect: string, tainted: bool) {
    && t.nodes.Keys == s.nodes.Keys && t.pool == s.pool
    && forall name :: name in s.nodes ==>
         if OutdatedIn(s.pool, name) then
           && LabelOf(t.nodes[name]) == (
                if Markable(s.nodes[name]) || Pending(s.nodes[name]) then Some("ready") else LabelOf(s.nodes[name]))
           && (tainted ==> HasTaint(t.nodes[name], effect))
         else t.nodes[name] == s.nodes[name]
  }

  lemma ReturnedAfter(s: Store, mid: Store, t: Store, effect: string, marked: bool)
    requires if marked then PoolMarks(s, mid, effect) else mid == s
    requires PoolReady(mid, t)
    ensures PoolReturned(s, t, effect, marked)
  {
  }

  /** `Update`: what a run and a rollback promise, together. In no case does a node leave
      `draining`, and no node is touched that is not an outdated member. After a cancelled
      update whose rollback succeeds, none of the outdated members that the rollback listed has
      stayed marked throughout; and if marking is left to this program, none of them is marked
      at the end. */
  method Update(server: ApiServer, effect: string, polls: nat)
    returns (r: Outcome, rolledBack: bool, ghost run: Moments, ghost undone: Moments)
    requires server.Valid()
    modifies server
    ensures server.Valid() && old(server.history) <= server.history
    ensures Switching(old(server.writes), server.writes, EverOutdated(server.history, |old(server.history)|))
    ensures r.Updated? ==>
      Marking(old(server.writes), server.writes, EverOutdated(server.history, |old(server.history)|))
    ensures r.Updated? || (r.Cancelled? && polls > 0) ==>
      && |old(server.history)| <= run.at <= run.listed < |server.history|
      && PoolMarked(server.history[run.at].pool, server.history[run.listed], server.history, |old(server.history)|)
      && (r.Updated? <==> NoneOutdated(server.history[run.at].pool, server.history[run.listed]))
    ensures rolledBack ==>
      && !r.Updated? && |old(server.history)| <= undone.at <= undone.listed < |server.history|
      && (r.Cancelled? && polls > 0 ==> run.listed < undone.at)
      && PoolReleased(server.history[undone.at].pool, undone.listed, server.history)
      && (server.quiet ==> TakenBack(server.history[undone.at], server.store))
    ensures server.calm ==> r.Updated? || (r.Cancelled? && rolledBack)
    ensures server.calm && r.Updated? ==> PoolMarks(old(server.store), server.store, effect)
    ensures server.calm && r.Cancelled? ==> PoolReturned(old(server.store), server.store, effect, polls > 0)
  {
    ghost var at, listed;
    r, at, listed := DoUpdate(server, effect, polls);
    run, undone, rolledBack := Moments(at, listed), Moments(0, 0), false;
    ghost var history, writes, mid := server.history, server.writes, server.store;
    var cancelled: bool := *;
    if r.Cancelled? || (r.Error? && cancelled) {
      rolledBack, undone := RollBack(server);
      SwitchingJoin(old(server.writes), writes, server.writes, history, server.history, |old(server.history)|);
      if r.Cancelled? && polls > 0 {
        PoolMarkedLater(history[at].pool, history[listed], history, server.history, |old(server.history)|);
      }
      if server.calm {
        ReturnedAfter(old(server.store), mid, server.store, effect, polls > 0);
      }
    }
  }

  /** The rollback, repeated while it fails. */
  method RollBack(server: ApiServer) returns (done: bool, ghost undone: Moments)
    requires server.Valid()
    modifies server
    ensures server.Valid() && old(server.history) <= server.history
    ensures Unmarking(old(server.writes), server.writes, EverOutdated(server.history, |old(server.history)|))
    ensures done ==>
      && |old(server.history)| <= undone.at <= undone.listed < |server.history|
      && PoolReleased(server.history[undone.at].pool, undone.listed, server.history)
      && (server.quiet ==> TakenBack(server.history[undone.at], server.store))
    ensures server.calm ==> done && PoolReady(old(server.store), server.store)
  {
    undone := Moments(0, 0);
    for attempt := 0 to ROLLBACK_RETRIES + 1
      invariant server.Valid() && old(server.history) <= server.history
      invariant Unmarking(old(server.writes), server.writes, EverOutdated(server.history, |old(server.history)|))
      invariant server.calm ==> attempt == 0 && server.store == old(server.store)
    {
      ghost var writes, history := server.writes, server.history;
      ghost var at, listed;
      done, at, listed := RollbackUpdate(server);
      UndoneJoin(old(server.writes), writes, server.writes, history, server.history, |old(server.history)|);
      undone := Moments(at, listed);
      if done {
        return;
      }
    }
    done := false;
  }

  lemma UndoneJoin(a: seq<Write>, b: seq<Write>, c: seq<Write>, history: seq<Store>, later: seq<Store>, from: nat)
    requires history <= later && from <= |history|
    ensures Unmarking(a, b, EverOutdated(history, from)) && Unmarking(b, c, EverOutdated(later, |history|)) ==>
      Unmarking(a, c, EverOutdated(later, from))
  {
    EverLater(history, later, from, from);
    EverLater(later, later, |history|, from);
    MarkingJoin(a, b, c, EverOutdated(history, from), EverOutdated(later, from));
    MarkingSubset(b, c, EverOutdated(later, |history|), EverOutdated(later, from));
  }
}
