/** The node pool manager over a cloud that moves on its own.

    Between any two calls the cloud may take steps. A call may fail; a request
    that fails may still have taken effect. Nothing is known about either beyond
    what the contracts of `Tick` and of the calls say. */
module Clouds {
  import opened NodePools
  import opened NodeSelection
  import Drains

  datatype Result<+T> = Ok(value: T) | Err

  /** 15 minutes of polling every 15 seconds. */
  const MAX_POLLS := 60

  /******* Pools over time *******/

  /** Nodes read at p are still the same nodes at q, unless they are gone. */
  ghost predicate Evolves(p: Pool, q: Pool) {
    && q.generation == p.generation
    && p.gone <= q.gone
    && (forall id :: id in p.nodes ==> id in q.gone || (id in q.nodes && Aged(p.nodes[id], q.nodes[id])))
    && (forall id :: id in q.nodes && id !in p.nodes ==> q.nodes[id].generation == q.generation)
  }

  predicate Aged(m: Node, n: Node) {
    m.generation == n.generation && m.domain == n.domain && (m.cordoned ==> n.cordoned)
  }

  lemma EvolvesTransitive(p: Pool, q: Pool, r: Pool)
    requires Evolves(p, q) && Evolves(q, r) && WellFormed(r)
    ensures Evolves(p, r)
  {
  }

  lemma CloudTransitive(p: Pool, q: Pool, r: Pool, spot: bool)
    requires WellFormed(p) && CloudStep(p, q, spot) && CloudStep(q, r, spot)
    ensures CloudStep(p, r, spot)
  {
    assert forall id :: id in p.nodes && id in r.nodes ==> id in q.nodes;
  }

  lemma CloudKeeps(p: Pool, q: Pool)
    requires WellFormed(p) && CloudStep(p, q, false)
    ensures Old(q) == Old(p) && Cordoned(q) == Cordoned(p) && Ready(p) <= Ready(q)
    ensures Settled(p) ==> Settled(q)
  {
    if Settled(p) {
      SettledPools(p);
      SubsetSize(Ready(p), Ready(q));
      SubsetSize(Ready(q), q.nodes.Keys);
    }
  }

  ghost function IsQuiet(): Step -> bool { (st: Step) => st.event.CloudActs? }

  ghost function IsLate(): Step -> bool { (st: Step) => st.event.CloudActs? && !Settled(st.after) }

  /** Since step k, and up to the end, the cloud has been waited for as long as the code does,
      in vain. */
  ghost predicate TimedOut(t: seq<Step>, k: nat) {
    |t| >= k + MAX_POLLS && EachFrom(t, |t| - MAX_POLLS, IsLate())
  }

  ghost predicate Quiet(t: seq<Step>, k: nat) {
    EachFrom(t, k, IsQuiet())
  }

  /******* Snapshots *******/

  lemma ListsAll(s: Snapshot, p: Pool)
    requires Lists(s, p)
    ensures IdSet(s.nodes) == p.nodes.Keys
  {
    IdSetSize(s.nodes);
    assert IdSet(s.nodes) <= p.nodes.Keys;
    SubsetSize(IdSet(s.nodes), p.nodes.Keys);
  }

  lemma {:induction false} NewListed(nodes: seq<Node>, g: int)
    ensures |OldNodes(nodes, g)| + |NewNodes(nodes, g)| == |nodes|
  {
    if nodes != [] {
      NewListed(nodes[..|nodes| - 1], g);
    }
  }

  /** The lists of outdated and new nodes in a snapshot are those of the pool. */
  lemma SnapshotOld(s: Snapshot, p: Pool)
    requires Lists(s, p)
    ensures var oldNodes := OldNodes(s.nodes, s.generation);
      && IdSet(oldNodes) == Old(p) && |oldNodes| == |Old(p)| && DistinctIds(oldNodes)
      && (forall n :: n in oldNodes ==> n.id in p.nodes && p.nodes[n.id] == n && n.generation != p.generation)
    ensures |NewNodes(s.nodes, s.generation)| == |New(p)|
  {
    var oldNodes := OldNodes(s.nodes, s.generation);
    OldListed(s.nodes, s.generation);
    NewListed(s.nodes, s.generation);
    ListsAll(s, p);
    IdSetSize(oldNodes);
    forall id | id in Old(p) ensures id in IdSet(oldNodes) {
      assert id in IdSet(s.nodes);
      var n :| n in s.nodes && n.id == id;
      assert n in oldNodes;
    }
    assert IdSet(oldNodes) == Old(p);
    SplitSizes(p);
  }

  /******* The node pool manager *******/

  class Cloud {
    var pool: Pool
    const spot: bool
    /** Whether all calls succeed and nothing is cancelled. */
    const reliable: bool
    ghost var trace: seq<Step>

    ghost predicate Valid()
      reads this
    {
      && WellFormed(pool)
      && Chain(trace, spot)
      && trace != [] && trace[|trace| - 1].after == pool
    }

    constructor (pool: Pool, spot: bool, reliable: bool)
      requires WellFormed(pool)
      ensures Valid() && this.pool == pool && this.spot == spot && this.reliable == reliable
      ensures trace == [Step(pool, CloudActs, pool)]
    {
      this.pool := pool;
      this.spot := spot;
      this.reliable := reliable;
      trace := [Step(pool, CloudActs, pool)];
    }

    lemma LastState()
      requires Valid()
      ensures trace != [] && trace[|trace| - 1].after == pool
    {
    }

    /** Applies one step and puts it on the trace. */
    method Advance(e: Event, next: Pool)
      requires Valid() && Effect(Step(pool, e, next), spot)
      modifies this
      ensures Valid() && pool == next && trace == old(trace) + [Step(old(pool), e, next)]
    {
      ChainSnoc(trace, Step(pool, e, next), spot);
      trace := trace + [Step(pool, e, next)];
      pool := next;
    }

    /** A failed call, or a cancelled context. */
    method Fault() returns (fault: bool)
      ensures reliable ==> !fault
    {
      fault := *;
      fault := fault && !reliable;
    }

    /** The cloud moves: any step it can take. */
    method Tick()
      requires Valid()
      modifies this
      ensures Valid() && trace == old(trace) + [Step(old(pool), CloudActs, pool)]
      ensures CloudStep(old(pool), pool, spot) && Evolves(old(pool), pool)
    {
      var next: Pool := *;
      if !CloudStep(pool, next, spot) {
        next := pool;
      }
      CloudEvolves(pool, next, spot);
      Advance(CloudActs, next);
    }

    /** The current nodes in some order, or a failed request. */
    method GetPool() returns (r: Result<Snapshot>)
      requires Valid()
      ensures r.Ok? ==> Lists(r.value, pool)
      ensures reliable ==> r.Ok?
    {
      var failed := Fault();
      if failed {
        return Err;
      }
      var todo := pool.nodes.Keys;
      var nodes: seq<Node> := [];
      while todo != {}
        invariant todo <= pool.nodes.Keys
        invariant |nodes| == |pool.nodes| - |todo|
        invariant forall n :: n in nodes ==> n.id in pool.nodes && pool.nodes[n.id] == n && n.id !in todo
        invariant DistinctIds(nodes)
      {
        var id :| id in todo;
        nodes := nodes + [pool.nodes[id]];
        todo := todo - {id};
      }
      r := Ok(Snapshot(pool.generation, pool.desired, nodes));
    }

    /** `WaitForDesiredNodes`: spot pools are not waited for. */
    method WaitForDesiredNodes() returns (r: Result<Snapshot>)
      requires Valid()
      modifies this
      ensures Valid() && old(trace) <= trace && Quiet(trace, |old(trace)|)
      ensures CloudStep(old(pool), pool, spot)
      ensures r.Ok? ==> Lists(r.value, pool) && (spot || Settled(pool)) && |trace| > |old(trace)|
      ensures reliable && r.Err? ==> TimedOut(trace, |old(trace)|)
    {
      CloudEvolves(pool, pool, spot);
      for polls := 0 to MAX_POLLS
        invariant Valid() && old(trace) <= trace && Quiet(trace, |old(trace)|)
        invariant CloudStep(old(pool), pool, spot)
        invariant |trace| == |old(trace)| + polls && EachFrom(trace, |old(trace)|, IsLate())
      {
        ghost var t := trace;
        Poll(old(pool), |old(trace)|);
        r := GetPool();
        if r.Err? {
          return;
        }
        if |Ready(pool)| == pool.desired || spot {
          return;
        }
        EachSnoc(t, |old(trace)|, trace[|t|], IsLate());
      }
      return Err;
    }

    /** One more tick of the cloud, seen from where the waiting began. */
    method Poll(ghost start: Pool, ghost k: nat)
      requires Valid() && WellFormed(start) && CloudStep(start, pool, spot)
      requires k <= |trace| && Quiet(trace, k)
      modifies this
      ensures Valid() && trace == old(trace) + [Step(old(pool), CloudActs, pool)] && Quiet(trace, k)
      ensures CloudStep(start, pool, spot)
    {
      Tick();
      CloudTransitive(start, old(pool), pool, spot);
      EachSnoc(old(trace), k, Step(old(pool), CloudActs, pool), IsQuiet());
    }

    /** A Kubernetes patch: marks a node unschedulable if it is still there. */
    method CordonNode(node: Node) returns (ok: bool, ghost mid: Pool)
      requires Valid()
      modifies this
      ensures Valid() && CloudStep(old(pool), mid, spot) && Evolves(old(pool), mid) && Evolves(old(pool), pool)
      ensures
        || (!ok && pool == mid && trace == old(trace) + [Step(old(pool), CloudActs, mid)])
        || (node.id in mid.nodes && pool == WithCordon(mid, node.id) &&
            trace == old(trace) + [Step(old(pool), CloudActs, mid), Step(mid, Cordon(node.id), pool)])
      ensures reliable && node.id in mid.nodes ==> ok
    {
      Tick();
      mid := pool;
      var failed := Fault();
      if failed || node.id !in pool.nodes {
        return false, mid;
      }
      CordonEvolves(old(pool), pool, node.id);
      Advance(Cordon(node.id), WithCordon(pool, node.id));
      failed := Fault();
      ok := !failed;
    }

    /** Drains the node and, if that left no evictable pod, has the backend
        terminate it. */
    method TerminateNode(node: Node, decrement: bool) returns (ok: bool)
      requires Valid()
      modifies this
      ensures Valid() && old(trace) < trace && Evolves(old(pool), pool)
      ensures TerminationSteps(trace, |old(trace)|, node.id, decrement, old(pool))
      ensures !spot ==> TerminationOutcome(old(pool), pool, node.id, decrement, ok)
      ensures ok ==> node.id in pool.gone
      ensures reliable && !spot && node.id in old(pool).nodes ==> ok
    {
      ok := Drain(node);
      if !spot {
        CloudKeeps(old(pool), pool);
      }
      if ok {
        ok := FinishTermination(node, decrement, old(pool), |old(trace)|);
      }
    }

    /** The same with the drain itself in place of its outcome: no step after the first, so
        neither a recorded drain nor a termination, unless the node was left without evictable
        pods. The limits on forced deletions are part of `d.Valid()`. */
    method TerminateDrained(node: Node, decrement: bool, d: Drains.DrainedNode, polls: nat) returns (ok: bool)
      requires Valid() && d.Valid()
      modifies this, d
      ensures Valid() && d.Valid() && old(trace) < trace && Evolves(old(pool), pool)
      ensures TerminationSteps(trace, |old(trace)|, node.id, decrement, old(pool))
      ensures |trace| > |old(trace)| + 1 ==> d.Empty()
      ensures !spot ==> TerminationOutcome(old(pool), pool, node.id, decrement, ok)
      ensures ok ==> node.id in pool.gone
    {
      ok := DrainWith(node, d, polls);
      if !spot {
        CloudKeeps(old(pool), pool);
      }
      if ok {
        ok := FinishTermination(node, decrement, old(pool), |old(trace)|);
      }
    }

    method DrainWith(node: Node, d: Drains.DrainedNode, polls: nat) returns (ok: bool)
      requires Valid() && d.Valid()
      modifies this, d
      ensures Valid() && d.Valid() && CloudStep(old(pool), pool, spot) && Evolves(old(pool), pool)
      ensures trace ==
        old(trace) + [Step(old(pool), CloudActs, pool)] + if ok then [Step(pool, Drained(node.id), pool)] else []
      ensures ok ==> node.id in pool.nodes && d.Empty()
    {
      Tick();
      ok := d.Drain(polls);
      var cancelled := Fault();
      ok := ok && !cancelled && node.id in pool.nodes;
      if ok {
        Advance(Drained(node.id), pool);
      }
    }

    /** The second half of a termination that started at `start`. */
    method FinishTermination(node: Node, decrement: bool, ghost start: Pool, ghost k: nat) returns (ok: bool)
      requires Valid() && Evolves(start, pool) && node.id in pool.nodes
      requires |trace| == k + 2 && trace[k].event.CloudActs? && trace[k].before == start
      requires trace[k + 1] == Step(pool, Drained(node.id), pool)
      requires !spot ==> Old(pool) == Old(start) && Cordoned(pool) == Cordoned(start) && pool.desired == start.desired
      modifies this
      ensures Valid() && old(trace) < trace && Evolves(start, pool)
      ensures TerminationSteps(trace, k, node.id, decrement, start)
      ensures !spot ==> TerminationOutcome(start, pool, node.id, decrement, ok)
      ensures ok ==> node.id in pool.gone
      ensures reliable && !spot ==> ok
    {
      ok := BackendTerminate(node, decrement);
      EvolvesTransitive(start, old(pool), pool);
      EvolvesTransitive(start, old(pool), trace[k + 2].after);
      assert trace[k] == old(trace)[k] && trace[k + 1] == old(trace)[k + 1];
    }

    /** On success the drain has seen the node without evictable pods. */
    method Drain(node: Node) returns (ok: bool)
      requires Valid()
      modifies this
      ensures Valid() && CloudStep(old(pool), pool, spot) && Evolves(old(pool), pool)
      ensures trace ==
        old(trace) + [Step(old(pool), CloudActs, pool)] + if ok then [Step(pool, Drained(node.id), pool)] else []
      ensures ok ==> node.id in pool.nodes
      ensures reliable && node.id in pool.nodes ==> ok
    {
      Tick();
      var failed := Fault();
      ok := !failed && node.id in pool.nodes;
      if ok {
        Advance(Drained(node.id), pool);
      }
    }

    method BackendTerminate(node: Node, decrement: bool) returns (ok: bool)
      requires Valid()
      modifies this
      ensures Valid() && old(trace) < trace && Evolves(old(pool), pool)
      ensures |trace| <= |old(trace)| + 2 && trace[|old(trace)|].event.CloudActs?
      ensures |trace| == |old(trace)| + 2 ==> trace[|trace| - 1].event == Terminate(node.id, decrement)
      ensures WellFormed(trace[|old(trace)|].after) && Evolves(old(pool), trace[|old(trace)|].after)
      ensures |trace| == |old(trace)| + 2 ==>
        trace[|trace| - 1].before == trace[|old(trace)|].after && node.id in trace[|trace| - 1].before.nodes
      ensures !spot ==> TerminationOutcome(old(pool), pool, node.id, decrement, ok)
      ensures ok ==> node.id in pool.gone
      ensures reliable && !spot && node.id in old(pool).nodes ==> ok
    {
      Tick();
      ghost var mid := pool;
      if !spot {
        CloudKeeps(old(pool), mid);
      }
      var failed := Fault();
      if node.id in pool.nodes && !failed {
        Remove(node.id, decrement, old(pool));
        failed := Fault();
        ok := !failed;
      } else {
        ok := spot && node.id in pool.gone && !failed;
      }
    }

    /** The node goes; what was read at `start` is still so, but for that. */
    method Remove(id: string, decrement: bool, ghost start: Pool)
      requires Valid() && Evolves(start, pool) && id in pool.nodes
      modifies this
      ensures Valid() && Evolves(start, pool) && id in pool.gone
      ensures trace == old(trace) + [Step(old(pool), Terminate(id, decrement), pool)]
      ensures Old(pool) == Old(old(pool)) - {id} && Cordoned(pool) == Cordoned(old(pool)) - {id}
      ensures pool.desired == if decrement then old(pool).desired - 1 else old(pool).desired
    {
      TerminateEvolves(start, pool, id, decrement);
      Advance(Terminate(id, decrement), Without(pool, id, decrement));
    }
  }

  lemma CloudEvolves(p: Pool, q: Pool, spot: bool)
    requires WellFormed(p) && (CloudStep(p, q, spot) || q == p)
    ensures CloudStep(p, q, spot) && Evolves(p, q)
  {
  }

  lemma CordonEvolves(start: Pool, p: Pool, id: string)
    requires WellFormed(p) && Evolves(start, p) && id in p.nodes
    ensures WellFormed(WithCordon(p, id)) && Evolves(start, WithCordon(p, id))
  {
    assert WithCordon(p, id).nodes.Keys == p.nodes.Keys;
  }

  lemma TerminateEvolves(start: Pool, p: Pool, id: string, decrement: bool)
    requires WellFormed(p) && Evolves(start, p) && id in p.nodes
    ensures WellFormed(Without(p, id, decrement)) && Evolves(start, Without(p, id, decrement))
    ensures Old(Without(p, id, decrement)) == Old(p) - {id}
    ensures Cordoned(Without(p, id, decrement)) == Cordoned(p) - {id}
  {
    var q := Without(p, id, decrement);
    assert q.nodes.Keys == p.nodes.Keys - {id};
    assert |q.nodes.Keys| == |p.nodes.Keys| - 1;
  }

  /** A node of the pool `start` is still there. */
  ghost predicate Found(start: Pool, p: Pool, id: string) {
    WellFormed(p) && Evolves(start, p) && id in p.nodes
  }

  /** What one call of `TerminateNode` puts on the trace: at most one termination,
      after a drain, of a node that is still the one that was asked for. */
  ghost predicate TerminationSteps(t: seq<Step>, k: nat, id: string, decrement: bool, start: Pool) {
    && k < |t| <= k + 4
    && t[k].event.CloudActs? && t[k].before == start
    && (k + 1 < |t| ==> t[k + 1].event == Drained(id) && Found(start, t[k + 1].before, id))
    && (k + 2 < |t| ==> t[k + 2].event.CloudActs?)
    && (k + 3 < |t| ==> t[k + 3].event == Terminate(id, decrement) && Found(start, t[k + 3].before, id))
  }

  /** A call that fails may have had its effect. */
  ghost predicate TerminationOutcome(p: Pool, q: Pool, id: string, decrement: bool, ok: bool) {
    || (Old(q) == Old(p) - {id} && Cordoned(q) == Cordoned(p) - {id}
      && q.desired == if decrement then p.desired - 1 else p.desired)
    || (!ok && Old(q) == Old(p) && Cordoned(q) == Cordoned(p) && q.desired == p.desired)
  }
}
