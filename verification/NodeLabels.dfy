/** Changes to node objects in the API server: get, patch, and write back on the
    condition that nobody else has written in between. Other clients may act between
    any two requests. */
module NodeLabels {
  import opened Options

  const LIFECYCLE_STATUS := "lifecycle-status"
  const DRAINING := "draining"
  const DECOMMISSION_PENDING := "decommission-pending"
  const READY := "ready"
  const TAINT_VALUE := "rolling-upgrade"
  const MAX_CONFLICT_RETRIES := 50

  datatype Taint = Taint(key: string, value: string, effect: string)

  datatype NodeObject = NodeObject(
    version: nat, labels: map<string, string>, annotations: map<string, string>,
    taints: seq<Taint>, unschedulable: bool)

  datatype Patch =
    | Label(key: string, value: string)
    | Annotate(key: string, value: string)
    | CompareAndSet(key: string, expected: string, value: string)
    | SetTaint(key: string, value: string, effect: string)

  /******* Patches *******/

  /** Whether a patch changes a list of labels or annotations. */
  predicate Missing(m: map<string, string>, key: string, value: string) {
    key !in m || m[key] != value
  }

  /** The check that is made on the object that the caller already has. */
  predicate Needs(p: Patch, n: NodeObject) {
    match p
    case Label(k, v) => Missing(n.labels, k, v)
    case Annotate(k, v) => Missing(n.annotations, k, v)
    case CompareAndSet(k, expected, _) => k !in n.labels || n.labels[k] == expected
    case SetTaint(k, v, e) => Taint(k, v, e) !in n.taints
  }

  /** The check that is made on the object that was just fetched. */
  predicate Changes(p: Patch, n: NodeObject) {
    match p
    case Label(k, v) => Missing(n.labels, k, v)
    case Annotate(k, v) => Missing(n.annotations, k, v)
    case CompareAndSet(k, expected, _) => k !in n.labels || n.labels[k] == expected
    case SetTaint(k, v, e) => !Tainted(n.taints, k, v, e)
  }

  /** The first taint with the key is the given one. */
  predicate Tainted(taints: seq<Taint>, k: string, v: string, e: string) {
    taints != [] && if taints[0].key == k then taints[0] == Taint(k, v, e) else Tainted(taints[1..], k, v, e)
  }

  function WithTaint(taints: seq<Taint>, k: string, v: string, e: string): seq<Taint> {
    if taints == [] then [Taint(k, v, e)]
    else if taints[0].key == k then [Taint(k, v, e)] + taints[1..]
    else [taints[0]] + WithTaint(taints[1..], k, v, e)
  }

  function Applied(p: Patch, n: NodeObject): NodeObject {
    match p
    case Label(k, v) => n.(labels := n.labels[k := v])
    case Annotate(k, v) => n.(annotations := n.annotations[k := v])
    case CompareAndSet(k, expected, v) =>
      if k in n.labels && n.labels[k] != expected then n else n.(labels := n.labels[k := v])
    case SetTaint(k, v, e) => n.(taints := WithTaint(n.taints, k, v, e))
  }

  /** `updateTaint`: edits the taints of a fetched object in place. */
  method UpdateTaint(taints: array<Taint>, k: string, v: string, e: string) returns (changed: bool, r: seq<Taint>)
    modifies taints
    ensures r == WithTaint(old(taints[..]), k, v, e)
    ensures changed <==> !Tainted(old(taints[..]), k, v, e)
  {
    ghost var was := taints[..];
    for i := 0 to taints.Length
      invariant taints[..] == was && forall j :: 0 <= j < i ==> was[j].key != k
    {
      if taints[i].key == k {
        FirstTaint(was, k, v, e, i);
        if taints[i].value == v && taints[i].effect == e {
          return false, taints[..];
        }
        taints[i] := Taint(k, v, e);
        return true, taints[..];
      }
    }
    FirstTaint(was, k, v, e, taints.Length);
    return true, taints[..] + [Taint(k, v, e)];
  }

  /** Where the first taint with the key is, if there is one. */
  lemma {:induction false} FirstTaint(taints: seq<Taint>, k: string, v: string, e: string, i: nat)
    requires i <= |taints| && (forall j :: 0 <= j < i ==> taints[j].key != k)
    requires i < |taints| ==> taints[i].key == k
    ensures WithTaint(taints, k, v, e) ==
      if i < |taints| then taints[i := Taint(k, v, e)] else taints + [Taint(k, v, e)]
    ensures Tainted(taints, k, v, e) <==> i < |taints| && taints[i] == Taint(k, v, e)
  {
    if i > 0 {
      FirstTaint(taints[1..], k, v, e, i - 1);
    }
  }

  method Apply(p: Patch, n: NodeObject) returns (changed: bool, r: NodeObject)
    ensures r == Applied(p, n) && (changed <==> Changes(p, n))
  {
    match p
    case Label(k, v) => changed, r := Missing(n.labels, k, v), n.(labels := n.labels[k := v]);
    case Annotate(k, v) => changed, r := Missing(n.annotations, k, v), n.(annotations := n.annotations[k := v]);
    case CompareAndSet(k, expected, v) =>
      if k in n.labels && n.labels[k] != expected {
        return false, n;
      }
      changed, r := true, n.(labels := n.labels[k := v]);
    case SetTaint(k, v, e) =>
      var taints := new Taint[|n.taints|](i requires 0 <= i < |n.taints| => n.taints[i]);
      assert taints[..] == n.taints;
      var all;
      changed, all := UpdateTaint(taints, k, v, e);
      r := n.(taints := all);
  }

  ghost predicate SameAt(m: map<string, string>, n: map<string, string>, k: string) {
    (k in m <==> k in n) && (k in n ==> m[k] == n[k])
  }

  /** A patch changes nothing but what it is aimed at: one label, one annotation, or the
      first taint with its key. */
  lemma OnlyTheTarget(p: Patch, n: NodeObject)
    ensures var m := Applied(p, n);
      && m.version == n.version && m.unschedulable == n.unschedulable
      && (!p.Annotate? ==> m.annotations == n.annotations)
      && (!p.SetTaint? ==> m.taints == n.taints)
      && (p.Annotate? || p.SetTaint? ==> m.labels == n.labels)
      && (forall k :: k != p.key ==> SameAt(m.labels, n.labels, k) && SameAt(m.annotations, n.annotations, k))
    ensures !Changes(p, Applied(p, n)) || (p.CompareAndSet? && p.expected == p.value)
    ensures p.Label? ==> p.key in Applied(p, n).labels && Applied(p, n).labels[p.key] == p.value
    ensures p.Annotate? ==> p.key in Applied(p, n).annotations && Applied(p, n).annotations[p.key] == p.value
    ensures p.CompareAndSet? && (p.key !in n.labels || n.labels[p.key] == p.expected) ==>
      p.key in Applied(p, n).labels && Applied(p, n).labels[p.key] == p.value
    ensures p.CompareAndSet? && p.key in n.labels && n.labels[p.key] != p.expected ==> Applied(p, n) == n
    ensures p.SetTaint? ==> Without(Applied(p, n).taints, p.key) == Without(n.taints, p.key)
  {
    if p.SetTaint? {
      TaintSet(n.taints, p.key, p.value, p.effect);
    }
  }

  /** The taints with other keys. */
  function Without(taints: seq<Taint>, k: string): seq<Taint> {
    if taints == [] then [] else (if taints[0].key == k then [] else [taints[0]]) + Without(taints[1..], k)
  }

  lemma {:induction false} TaintSet(taints: seq<Taint>, k: string, v: string, e: string)
    ensures Tainted(WithTaint(taints, k, v, e), k, v, e)
    ensures WithTaint(taints, k, v, e) == taints <==> Tainted(taints, k, v, e)
    ensures Without(WithTaint(taints, k, v, e), k) == Without(taints, k)
  {
    var r := WithTaint(taints, k, v, e);
    if taints != [] {
      TaintSet(taints[1..], k, v, e);
      assert r[1..] == if taints[0].key == k then taints[1..] else WithTaint(taints[1..], k, v, e);
      assert taints == [taints[0]] + taints[1..];
      if taints[0].key != k && r == taints {
        assert WithTaint(taints[1..], k, v, e) == taints[1..];
      }
    }
  }

  /******* The API server *******/

  /** A node pool as its backend has it: the current generation, and that of each member. */
  datatype Membership = Membership(generation: int, members: map<string, int>)

  datatype Store = Store(nodes: map<string, NodeObject>, revision: nat, pool: Membership)

  predicate WellFormed(s: Store) {
    forall name :: name in s.nodes ==> s.nodes[name].version <= s.revision
  }

  /** Time passes: whatever was written since has a version that is newer than anything
      from before. */
  predicate Later(s: Store, t: Store) {
    && s.revision <= t.revision
    && forall name :: name in t.nodes ==>
         t.nodes[name].version > s.revision || (name in s.nodes && t.nodes[name] == s.nodes[name])
  }

  predicate Pending(n: NodeObject) {
    LIFECYCLE_STATUS in n.labels && n.labels[LIFECYCLE_STATUS] == DECOMMISSION_PENDING
  }

  /** Nobody marks a node for decommissioning, and new nodes come without the mark. */
  predicate NoMarks(s: Store, t: Store) {
    forall name :: name in t.nodes && Pending(t.nodes[name]) ==> name in s.nodes && Pending(s.nodes[name])
  }

  predicate Passes(s: Store, t: Store, quiet: bool) {
    Later(s, t) && (quiet ==> NoMarks(s, t))
  }

  lemma LaterTransitive(s: Store, t: Store, u: Store)
    requires Later(s, t) && Later(t, u)
    ensures Later(s, u)
    ensures NoMarks(s, t) && NoMarks(t, u) ==> NoMarks(s, u)
  {
  }

  /** A write of this program: the object in the store that it replaced, and what with. */
  datatype Write = Write(name: string, patch: Patch, before: NodeObject, after: NodeObject)

  /** The write changed its target in the very version that it replaced. */
  ghost predicate Faithful(w: Write) {
    w.after == Applied(w.patch, w.before).(version := w.after.version) && w.after.version > w.before.version
  }

  datatype Reply = Done | Conflict | Failed

  /** The API server, and behind it the pool. */
  class ApiServer {
    /** Whether the other clients leave marking nodes to this program. */
    const quiet: bool
    /** Whether nobody else acts at all, and no request fails. */
    const calm: bool
    var store: Store
    ghost var history: seq<Store>
    ghost var writes: seq<Write>

    /** No update is lost: every write so far was faithful. */
    ghost predicate Valid()
      reads this
    {
      && WellFormed(store)
      && history != [] && history[|history| - 1] == store
      && forall w :: w in writes ==> Faithful(w)
    }

    constructor (store: Store, quiet: bool, calm: bool)
      requires WellFormed(store)
      ensures Valid() && this.store == store && writes == [] && history == [store]
      ensures this.quiet == quiet && this.calm == calm
    {
      this.store, this.quiet, this.calm, history, writes := store, quiet, calm, [store], [];
    }

    /** Other clients act, and the pool changes. */
    method Interfere()
      requires Valid()
      modifies this`store, this`history
      ensures Valid() && Passes(old(store), store, quiet) && history == old(history) + [store]
      ensures calm ==> store == old(store)
    {
      var next: Store := *;
      if !calm && WellFormed(next) && Passes(store, next, quiet) {
        store := next;
      }
      history := history + [store];
    }

    method Fault() returns (fault: bool)
      ensures calm ==> !fault
    {
      fault := *;
      fault := fault && !calm;
    }

    method Get(name: string) returns (r: Option<NodeObject>)
      requires Valid()
      modifies this`store, this`history
      ensures Valid() && Passes(old(store), store, quiet) && history == old(history) + [store]
      ensures r.Some? ==> name in store.nodes && store.nodes[name] == r.value
      ensures calm ==> store == old(store) && (name in store.nodes ==> r.Some?)
    {
      Interfere();
      var failed := Fault();
      r := if failed || name !in store.nodes then None else Some(store.nodes[name]);
    }

    /** Writes an object back if its version is still the current one. Even then the
        answer may be lost. */
    method Update(name: string, n: NodeObject, ghost patch: Patch, ghost fetched: NodeObject, ghost past: Store)
      returns (r: Reply)
      requires Valid() && WellFormed(past) && Later(past, store)
      requires name in past.nodes && past.nodes[name] == fetched && n == Applied(patch, fetched)
      modifies this
      ensures Valid() && old(history) < history
      ensures Later(old(store), store) && (!MakesPending(patch, fetched) ==> Passes(old(store), store, quiet))
      ensures r.Done? ==> name in store.nodes && store.nodes[name] == n.(version := store.nodes[name].version)
      ensures r.Conflict? ==> writes == old(writes) && Passes(old(store), store, quiet)
      ensures writes == old(writes) || exists w ::
        writes == old(writes) + [w] && w.name == name && w.patch == patch && w.before == fetched
      ensures calm && name in old(store).nodes && old(store).nodes[name] == fetched ==>
        r.Done? && Became(old(store), store, name, n)
      ensures calm ==> store.nodes.Keys == old(store).nodes.Keys && store.pool == old(store).pool
    {
      Interfere();
      LaterTransitive(past, old(store), store);
      OnlyTheTarget(patch, fetched);
      var failed := Fault();
      if failed || name !in store.nodes {
        return Failed;
      }
      if store.nodes[name].version != n.version {
        return Conflict;
      }
      Unchanged(past, store, name);
      ghost var mid := store;
      Replace(name, n, patch);
      LaterTransitive(old(store), mid, store);
      var lost := Fault();
      r := if lost then Failed else Done;
    }

    method Replace(name: string, n: NodeObject, ghost patch: Patch)
      requires Valid() && name in store.nodes && n == Applied(patch, store.nodes[name])
      modifies this
      ensures Valid() && history == old(history) + [store]
      ensures Later(old(store), store) && (!MakesPending(patch, old(store).nodes[name]) ==> NoMarks(old(store), store))
      ensures Became(old(store), store, name, n)
      ensures exists w ::
        writes == old(writes) + [w] && w.name == name && w.patch == patch && w.before == old(store).nodes[name]
    {
      OnlyTheTarget(patch, store.nodes[name]);
      var revision := store.revision + 1;
      var next := store.(nodes := store.nodes[name := n.(version := revision)], revision := revision);
      Rewritten(store, name, patch, next);
      ghost var w := Write(name, patch, store.nodes[name], next.nodes[name]);
      store := next;
      writes := writes + [w];
      history := history + [store];
    }
  }

  /** An object that still has its version was not touched by anybody. */
  lemma Unchanged(s: Store, t: Store, name: string)
    requires WellFormed(s) && Later(s, t) && name in s.nodes && name in t.nodes
    requires s.nodes[name].version == t.nodes[name].version
    ensures s.nodes[name] == t.nodes[name]
  {
  }

  ghost predicate MakesPending(p: Patch, n: NodeObject) {
    Pending(Applied(p, n)) && !Pending(n)
  }

  lemma Rewritten(s: Store, name: string, p: Patch, t: Store)
    requires WellFormed(s) && name in s.nodes
    requires t.nodes == s.nodes[name := Applied(p, s.nodes[name]).(version := s.revision + 1)]
    requires t.revision == s.revision + 1
    ensures WellFormed(t) && Later(s, t) && (!MakesPending(p, s.nodes[name]) ==> NoMarks(s, t))
  {
  }

  /** One node has become n, but for its version, and nothing else has changed. */
  ghost predicate Became(s: Store, t: Store, name: string, n: NodeObject) {
    && t.nodes.Keys == s.nodes.Keys && t.pool == s.pool
    && name in t.nodes && t.nodes[name] == n.(version := t.nodes[name].version)
    && forall other :: other in s.nodes && other != name ==> t.nodes[other] == s.nodes[other]
  }

  /** A patch that changes nothing leaves the object as it is. */
  lemma NothingToChange(p: Patch, n: NodeObject)
    requires !Changes(p, n)
    ensures Applied(p, n) == n
  {
    if p.SetTaint? {
      TaintSet(n.taints, p.key, p.value, p.effect);
    }
  }

  /******* Updating a node *******/

  /** At most one write, of the patch to the node. */
  ghost predicate Wrote(before: seq<Write>, after: seq<Write>, name: string, patch: Patch) {
    after == before || exists w :: after == before + [w] && w.name == name && w.patch == patch
  }

  predicate SetsPending(p: Patch) {
    (p.Label? || p.CompareAndSet?) && p.key == LIFECYCLE_STATUS && p.value == DECOMMISSION_PENDING
  }

  /** The node had what a patch asks for when the caller looked, or at the given moment. */
  ghost predicate Had(p: Patch, name: string, seen: NodeObject, history: seq<Store>, from: nat, at: nat) {
    !Needs(p, seen) || (from <= at < |history| && name in history[at].nodes && !Changes(p, history[at].nodes[name]))
  }

  /** What becomes of the current object, given the caller's copy. */
  function Patched(p: Patch, seen: NodeObject, n: NodeObject): NodeObject {
    if Needs(p, seen) then Applied(p, n) else n
  }

  /** `updateNode`. If it succeeds, then either the caller's copy of the node already
      had what was asked for, or the node itself had it at some point of the call. */
  method UpdateNode(server: ApiServer, name: string, seen: NodeObject, patch: Patch) returns (ok: bool, ghost at: nat)
    requires server.Valid() && (patch.CompareAndSet? ==> patch.expected != patch.value)
    modifies server
    ensures server.Valid() && Wrote(old(server.writes), server.writes, name, patch)
    ensures Later(old(server.store), server.store) && old(server.history) <= server.history
    ensures !SetsPending(patch) ==> Passes(old(server.store), server.store, server.quiet)
    ensures ok ==> Had(patch, name, seen, server.history, |old(server.history)|, at)
    ensures ok && Needs(patch, seen) ==> Passes(server.history[at], server.store, server.quiet)
    ensures server.calm && name in old(server.store).nodes ==>
      ok && Became(old(server.store), server.store, name, Patched(patch, seen, old(server.store).nodes[name]))
    ensures server.calm ==>
      server.store.nodes.Keys == old(server.store).nodes.Keys && server.store.pool == old(server.store).pool
  {
    at := 0;
    if !Needs(patch, seen) {
      return true, at;
    }
    for attempt := 0 to MAX_CONFLICT_RETRIES + 1
      invariant server.Valid() && server.writes == old(server.writes) && old(server.history) <= server.history
      invariant Passes(old(server.store), server.store, server.quiet)
      invariant server.calm ==> server.store == old(server.store)
      invariant server.calm && name in old(server.store).nodes ==> attempt == 0
    {
      ghost var before := server.store;
      var reply := TryUpdate(server, name, patch);
      LaterTransitive(old(server.store), before, server.store);
      at := |server.history| - 1;
      if !reply.Conflict? {
        return reply.Done?, at;
      }
    }
    return false, at;
  }

  /** Get, patch and conditional write, once. */
  method TryUpdate(server: ApiServer, name: string, patch: Patch) returns (reply: Reply)
    requires server.Valid() && (patch.CompareAndSet? ==> patch.expected != patch.value)
    modifies server
    ensures server.Valid() && Wrote(old(server.writes), server.writes, name, patch)
    ensures Later(old(server.store), server.store) && old(server.history) < server.history
    ensures !SetsPending(patch) ==> Passes(old(server.store), server.store, server.quiet)
    ensures reply.Done? ==> name in server.store.nodes && !Changes(patch, server.store.nodes[name])
    ensures reply.Conflict? ==>
      server.writes == old(server.writes) && Passes(old(server.store), server.store, server.quiet)
    ensures server.calm && name in old(server.store).nodes ==>
      reply.Done? && Became(old(server.store), server.store, name, Applied(patch, old(server.store).nodes[name]))
    ensures server.calm && reply.Conflict? ==> server.store == old(server.store)
    ensures server.calm ==>
      server.store.nodes.Keys == old(server.store).nodes.Keys && server.store.pool == old(server.store).pool
  {
    var fetched := server.Get(name);
    if fetched.None? {
      return Failed;
    }
    ghost var past := server.store;
    var changed, patched := Apply(patch, fetched.value);
    if !changed {
      NothingToChange(patch, fetched.value);
      return Done;
    }
    reply := server.Update(name, patched, patch, fetched.value, past);
    LaterTransitive(old(server.store), past, server.store);
    OnlyTheTarget(patch, fetched.value);
  }

  ghost predicate Draining(n: NodeObject) {
    LIFECYCLE_STATUS in n.labels && n.labels[LIFECYCLE_STATUS] == DRAINING
  }

  /** None of the latest writes moved a node out of `draining`. */
  ghost predicate DrainingKept(before: seq<Write>, after: seq<Write>) {
    before <= after && forall i :: |before| <= i < |after| && Draining(after[i].before) ==> Draining(after[i].after)
  }

  /******* Marking *******/

  ghost function LabelOf(n: NodeObject): Option<string> {
    if "lifecycle-status" in n.labels then Some(n.labels["lifecycle-status"]) else None
  }

  /** A write that marks a node, or leaves its lifecycle status alone. */
  ghost predicate MarkWrite(w: Write) {
    LabelOf(w.after) != LabelOf(w.before) ==>
      && (LabelOf(w.before).None? || LabelOf(w.before) == Some("ready"))
      && LabelOf(w.after) == Some("decommission-pending")
  }

  /** A write that takes a mark back, or leaves the lifecycle status alone. */
  ghost predicate UnmarkWrite(w: Write) {
    LabelOf(w.after) != LabelOf(w.before) ==>
      && (LabelOf(w.before).None? || LabelOf(w.before) == Some("decommission-pending"))
      && LabelOf(w.after) == Some("ready")
  }

  /** The latest writes mark nodes among the given ones, and do nothing else to their
      lifecycle status. */
  ghost predicate Marking(before: seq<Write>, after: seq<Write>, targets: iset<string>) {
    && DrainingKept(before, after)
    && forall i :: |before| <= i < |after| ==> MarkWrite(after[i]) && after[i].name in targets
  }

  /** The latest writes take marks back from nodes among the given ones. */
  ghost predicate Unmarking(before: seq<Write>, after: seq<Write>, targets: iset<string>) {
    && DrainingKept(before, after)
    && forall i :: |before| <= i < |after| ==> UnmarkWrite(after[i]) && after[i].name in targets
  }

  lemma MarkingJoin(a: seq<Write>, b: seq<Write>, c: seq<Write>, first: iset<string>, targets: iset<string>)
    requires first <= targets
    ensures Marking(a, b, first) && Marking(b, c, targets) ==> Marking(a, c, targets)
    ensures Unmarking(a, b, first) && Unmarking(b, c, targets) ==> Unmarking(a, c, targets)
  {
    if a <= b && b <= c {
      assert forall i :: 0 <= i < |b| ==> b[i] == c[i];
    }
  }

  /** Patches that are aimed elsewhere, or from `ready` to the mark, only mark. */
  lemma PatchMarks(before: seq<Write>, after: seq<Write>, name: string, p: Patch)
    requires Wrote(before, after, name, p) && forall w :: w in after ==> Faithful(w)
    requires p.SetTaint? || p == CompareAndSet("lifecycle-status", "ready", "decommission-pending")
    ensures Marking(before, after, iset{name})
  {
    if after != before {
      assert Faithful(after[|before|]);
    }
  }

  lemma PatchUnmarks(before: seq<Write>, after: seq<Write>, name: string, p: Patch)
    requires Wrote(before, after, name, p) && forall w :: w in after ==> Faithful(w)
    requires p == CompareAndSet("lifecycle-status", "decommission-pending", "ready")
    ensures Unmarking(before, after, iset{name})
  {
    if after != before {
      assert Faithful(after[|before|]);
    }
  }

  function PendingTaint(effect: string): Patch {
    SetTaint(DECOMMISSION_PENDING, TAINT_VALUE, effect)
  }

  function PendingMark(): Patch {
    CompareAndSet(LIFECYCLE_STATUS, READY, DECOMMISSION_PENDING)
  }

  /** Without a lifecycle status, or `ready`. */
  ghost predicate Markable(n: NodeObject) {
    LabelOf(n).None? || LabelOf(n) == Some("ready")
  }

  ghost predicate HasTaint(n: NodeObject, effect: string) {
    Taint("decommission-pending", "rolling-upgrade", effect) in n.taints
  }

  /** What marking makes of a node when nobody interferes: one that can be marked, in the
      caller's copy too, is marked; nothing else is done to the labels; and it is tainted. */
  ghost predicate MarkedFrom(seen: NodeObject, n: NodeObject, m: NodeObject, effect: string) {
    && m.labels == (
         if Markable(seen) && Markable(n) then n.labels["lifecycle-status" := "decommission-pending"] else n.labels)
    && m.annotations == n.annotations && m.unschedulable == n.unschedulable
    && ((HasTaint(seen, effect) ==> HasTaint(n, effect)) ==> HasTaint(m, effect))
  }

  /** One node has changed as a predicate says, and nothing else has. */
  ghost predicate OthersKept(s: Store, t: Store, name: string) {
    && t.nodes.Keys == s.nodes.Keys && t.pool == s.pool
    && forall other :: other in s.nodes && other != name ==> t.nodes[other] == s.nodes[other]
  }

  lemma MarkResult(s: Store, m: Store, t: Store, name: string, seen: NodeObject, effect: string)
    requires name in s.nodes
    requires Became(s, m, name, Patched(PendingTaint(effect), seen, s.nodes[name]))
    requires Became(m, t, name, Patched(PendingMark(), seen, m.nodes[name]))
    ensures OthersKept(s, t, name) && name in t.nodes && MarkedFrom(seen, s.nodes[name], t.nodes[name], effect)
  {
    TaintIn(s.nodes[name].taints, DECOMMISSION_PENDING, TAINT_VALUE, effect);
  }

  lemma {:induction false} TaintIn(taints: seq<Taint>, k: string, v: string, e: string)
    ensures Taint(k, v, e) in WithTaint(taints, k, v, e)
  {
    if taints != [] && taints[0].key != k {
      TaintIn(taints[1..], k, v, e);
    }
  }

  /** `MarkNodeForDecommission`: the node was tainted and then no longer `ready`, and the
      writes do nothing but taint it and mark it. */
  method MarkNodeForDecommission(server: ApiServer, name: string, seen: NodeObject, effect: string)
    returns (ok: bool, ghost tainted: nat, ghost marked: nat)
    requires server.Valid()
    modifies server
    ensures server.Valid() && Later(old(server.store), server.store) && old(server.history) <= server.history
    ensures Marking(old(server.writes), server.writes, iset{name})
    ensures ok ==> Had(PendingTaint(effect), name, seen, server.history, |old(server.history)|, tainted)
    ensures ok ==> Had(PendingMark(), name, seen, server.history, |old(server.history)|, marked)
    ensures server.calm && name in old(server.store).nodes ==>
      && ok && OthersKept(old(server.store), server.store, name)
      && name in server.store.nodes && MarkedFrom(seen, old(server.store).nodes[name], server.store.nodes[name], effect)
    ensures server.calm ==>
      server.store.nodes.Keys == old(server.store).nodes.Keys && server.store.pool == old(server.store).pool
  {
    ok, tainted := UpdateNode(server, name, seen, PendingTaint(effect));
    ghost var mid, writes := server.store, server.writes;
    PatchMarks(old(server.writes), writes, name, PendingTaint(effect));
    if !ok {
      return ok, tainted, tainted;
    }
    ok, marked := UpdateNode(server, name, seen, PendingMark());
    PatchMarks(writes, server.writes, name, PendingMark());
    MarkingJoin(old(server.writes), writes, server.writes, iset{name}, iset{name});
    LaterTransitive(old(server.store), mid, server.store);
    if server.calm && name in old(server.store).nodes {
      MarkResult(old(server.store), mid, server.store, name, seen, effect);
    }
  }

  /** Without a lifecycle status, or marked. */
  ghost predicate Releasable(n: NodeObject) {
    LabelOf(n).None? || LabelOf(n) == Some("decommission-pending")
  }

  /** What taking the mark back makes of a node when nobody interferes: `ready`, if it has a
      mark or no lifecycle status, in the caller's copy too, and otherwise what it was. */
  ghost predicate ReadyFrom(seen: NodeObject, n: NodeObject, m: NodeObject) {
    && m.taints == n.taints && m.annotations == n.annotations && m.unschedulable == n.unschedulable
    && m.labels == (
         if Releasable(seen) && Releasable(n) then n.labels["lifecycle-status" := "ready"] else n.labels)
  }

  /** A node was not marked when it was copied, or there is a moment since at which it is
      there and not marked. */
  ghost predicate Released(name: string, copy: NodeObject, history: seq<Store>, from: nat) {
    !Pending(copy) || exists m :: from <= m < |history| && UnmarkedAt(history[m], name)
  }

  ghost predicate UnmarkedAt(s: Store, name: string) {
    name in s.nodes && !Pending(s.nodes[name])
  }

  /** `AbortNodeDecommissioning`: whatever others write, the caller's copy or the node itself,
      at some moment of the call, was not marked. If marking is left to this program, then the
      node is not marked afterwards, provided that the copy was current when it was made. */
  method AbortNodeDecommissioning(server: ApiServer, name: string, seen: NodeObject, ghost past: Store)
    returns (ok: bool)
    requires server.Valid()
    requires name in past.nodes && past.nodes[name] == seen && Passes(past, server.store, server.quiet)
    modifies server
    ensures server.Valid() && old(server.history) <= server.history
    ensures Passes(old(server.store), server.store, server.quiet)
    ensures Unmarking(old(server.writes), server.writes, iset{name})
    ensures ok ==> Released(name, seen, server.history, |old(server.history)|)
    ensures ok && server.quiet ==> name !in server.store.nodes || !Pending(server.store.nodes[name])
    ensures server.calm && name in old(server.store).nodes ==>
      && ok && OthersKept(old(server.store), server.store, name)
      && name in server.store.nodes && ReadyFrom(seen, old(server.store).nodes[name], server.store.nodes[name])
    ensures server.calm ==>
      server.store.nodes.Keys == old(server.store).nodes.Keys && server.store.pool == old(server.store).pool
  {
    var abort := CompareAndSet(LIFECYCLE_STATUS, DECOMMISSION_PENDING, READY);
    ghost var at;
    ok, at := UpdateNode(server, name, seen, abort);
    PatchUnmarks(old(server.writes), server.writes, name, abort);
    LaterTransitive(past, old(server.store), server.store);
    if ok && Needs(abort, seen) {
      assert UnmarkedAt(server.history[at], name);
    }
  }
}
