/** The loop of the rolling update, and what a whole run of it promises. */
module UpdateLoops {
  import opened Division
  import opened NodePools
  import opened NodeSelection
  import opened Clouds
  import opened RollingUpdates

  datatype Outcome = Updated | Failed | Cancelled

  /** The surge is limited to the maximum size of the pool. */
  function Surge(maxSize: int, configured: nat): (surge: nat)
    ensures maxSize >= 1 ==> surge <= maxSize && surge <= configured && (surge == maxSize || surge == configured)
  {
    if maxSize < 1 then 0 else Min(maxSize, configured)
  }

  /** The desired size that an update of a pool with `outdated` outdated nodes and
      the given desired size ends with, if it never has to scale for a zone. */
  function Target(outdated: nat, desired: nat, surge: nat): int {
    ScaledOut(outdated, desired, surge) - Min(outdated, surge)
  }

  /** Target in terms of the numbers of outdated and new nodes. */
  lemma TargetByNodes(o: nat, n: nat, surge: nat)
    ensures Target(o, o + n, surge) == if o == 0 then n else o + Max(n, surge) - Min(o, surge)
  {
  }

  /** How often `surge` nodes have to be replaced. */
  function Rounds(outdated: nat, surge: nat): nat
    requires surge >= 1
  {
    if outdated == 0 then 0 else 1 + Rounds(Max(0, outdated - surge), surge)
  }

  lemma {:induction false} RoundsIsCeiling(outdated: nat, surge: nat)
    requires surge >= 1
    ensures Rounds(outdated, surge) == (outdated + surge - 1) / surge
  {
    if outdated == 0 {
      DivBounds(surge - 1, surge);
    } else {
      RoundsIsCeiling(Max(0, outdated - surge), surge);
      CeilingStep(outdated, surge);
    }
  }

  lemma CeilingStep(a: nat, s: nat)
    requires s >= 1 && a >= 1
    ensures (a + s - 1) / s == 1 + (Max(0, a - s) + s - 1) / s
  {
    DivBounds(a - 1, s);
    DivBounds(s - 1, s);
  }

  lemma DivBounds(a: nat, s: nat)
    requires s >= 1
    ensures (a + s) / s == a / s + 1
    ensures a < s ==> a / s == 0
  {
    var q := a / s;
    DivIs(a, s, q);
    assert (q + 1) * s == q * s + s;
    DivIs(a + s, s, q + 1);
    DivIs(a, s, 0);
  }

  /******* Since the first scale-out *******/

  lemma AvailableSince(t: seq<Step>, mark: nat, m: Pool, surge: nat, floor: int, i: nat)
    requires Marked(t, mark, m) && mark <= i < |t|
    requires Chain(t, false) && SafeFrom(t, mark) && MeteredFrom(t, mark, surge) && RestrainedFrom(t, mark, surge)
    requires floor <= |Serving(m)| && floor <= Ledger(m, surge)
    ensures floor <= |Serving(t[i].after)| && floor <= Ledger(t[i].after, surge)
  {
    assert t[mark - 1].after == t[mark].before;
    Available(t, mark, surge, floor, i);
  }

  lemma CordonBoundSince(t: seq<Step>, mark: nat, m: Pool, q: Pool, surge: nat)
    requires Marked(t, mark, m) && Marked(t, |t|, q) && CordonBound(m, surge)
    requires Chain(t, false) && SafeFrom(t, mark) && RestrainedFrom(t, mark, surge)
    ensures CordonBound(q, surge)
  {
    if mark < |t| {
      assert t[mark - 1].after == t[mark].before;
      CordonBoundKept(t, mark, surge);
    }
  }

  /** A pool that has just been scaled out is at its target, and serves it. */
  lemma ScaledOutServes(p: Pool, m: Pool, surge: nat)
    requires ScaledOutPool(p, m, surge)
    ensures Ledger(m, surge) == Target(|Old(p)|, p.desired, surge)
    ensures CordonBound(p, surge) ==> Target(|Old(p)|, p.desired, surge) <= |Serving(m)|
  {
    SettledPools(m);
  }

  lemma Later(t: seq<Step>, k: nat, m: nat, p: Step -> bool)
    requires k <= m && EachFrom(t, k, p)
    ensures EachFrom(t, m, p)
  {
    forall i | m <= i < |t| ensures p(t[i]) {
      At(t, k, p, i);
    }
  }

  /** From step k on, at least `floor` nodes serve and at least that much capacity
      is not on loan. */
  ghost predicate HeldFrom(t: seq<Step>, k: nat, floor: int, surge: nat) {
    EachFrom(t, k, Holds(floor, surge))
  }

  ghost function Holds(floor: int, surge: nat): Step -> bool {
    (st: Step) => floor <= |Serving(st.after)| && floor <= Ledger(st.after, surge)
  }

  /** Up to `mark` nothing but scaling out happens, from the pool p; there it has finished,
      unless it is the end of the trace, where the pool is q. */
  ghost predicate ScaledOutAt(mark: nat, k: nat, p: Pool, t: seq<Step>, q: Pool, surge: nat, spot: bool) {
    && k <= mark <= |t| && ScalesOut(t[..mark], k)
    && (!spot && mark < |t| ==> k < mark && ScaledOutPool(p, t[mark - 1].after, surge))
    && (!spot && mark == |t| ==> HalfScaledOut(p, q, surge))
  }

  /** A floor under the availability, from the scale-out on. */
  lemma Floor(k: nat, p: Pool, mark: nat, t: seq<Step>, q: Pool, surge: nat)
    requires ScaledOutAt(mark, k, p, t, q, surge, false) && CordonBound(p, surge)
    requires Chain(t, false) && Orderly(t, k, surge, false) && RestrainedFrom(t, k, surge)
    ensures HeldFrom(t, mark, Target(|Old(p)|, p.desired, surge), surge)
  {
    if mark < |t| {
      var m := t[mark - 1].after;
      ScaledOutServes(p, m, surge);
      Later(t, k, mark, IsSafe());
      Later(t, k, mark, IsMetered(surge));
      Later(t, k, mark, IsRestrained(surge));
      var floor := Target(|Old(p)|, p.desired, surge);
      forall i | mark <= i < |t| ensures Holds(floor, surge)(t[i]) {
        AvailableSince(t, mark, m, surge, floor, i);
      }
    }
  }

  /** The ledger since the scale-out. */
  lemma LedgerFrom(k: nat, p: Pool, mark: nat, t: seq<Step>, q: Pool, surge: nat)
    requires 0 < mark && k <= mark <= |t| && ScaledOutPool(p, t[mark - 1].after, surge) && Marked(t, |t|, q)
    requires Chain(t, false) && Orderly(t, k, surge, false)
    ensures Ledger(q, surge) == Target(|Old(p)|, p.desired, surge) + RaisedFrom(t, mark)
  {
    ScaledOutServes(p, t[mark - 1].after, surge);
    Later(t, k, mark, IsSafe());
    Later(t, k, mark, IsMetered(surge));
    LedgerSince(t, mark, t[mark - 1].after, q, surge);
  }

  /** Above its target a pool is large enough for the outdated nodes it still has. */
  lemma LargeEnough(p: Pool, q: Pool, surge: nat)
    requires Old(q) <= Old(p) && Ledger(q, surge) >= Target(|Old(p)|, p.desired, surge)
    ensures ScaledOut(|Old(q)|, q.desired, surge) == q.desired
  {
    SubsetSize(Old(q), Old(p));
  }

  /** Scaling out a pool that is large enough raises nothing. */
  lemma NothingToRaise(k: nat, q: Pool, m: nat, u: seq<Step>, r: Pool, surge: nat)
    requires k <= m <= |u| && Marked(u, k, q) && Marked(u, m, r) && ScalesOut(u[..m], k) && Chain(u, false)
    requires Old(r) == Old(q) && r.desired == q.desired
    ensures RaisedFrom(u[..m], k) == 0
  {
    Prefix(u, m, 0, IsEffect(false));
    ScalesOutOrderly(u[..m], k, surge, false);
    LedgerSince(u[..m], k, q, r, surge);
  }

  /** Nothing is chosen while scaling out. */
  lemma OwedSince(t: seq<Step>, k: nat, mark: nat, surge: nat)
    requires k <= mark <= |t| && ScalesOut(t[..mark], k)
    ensures OwedFrom(t, k, surge) == OwedFrom(t, mark, surge)
  {
    OwedJoin(t, k, mark, surge);
    ScalesOutNoChoice(t[..mark], k, surge);
  }

  /** Without volumes nothing is left unmatched. */
  lemma {:induction false} VolumeFreeOwes(t: seq<Step>, k: nat, surge: nat, spot: bool)
    requires Chain(t, spot) && VolumeFreeFrom(t, k)
    ensures OwedFrom(t, k, surge) == 0
  {
    if k < |t| {
      var last := |t| - 1;
      At(t, 0, IsEffect(spot), last);
      At(t, k, IsVolumeFree(), last);
      if t[last].event.Choose? {
        var snapshot := t[last].event.snapshot;
        SelectionOf(snapshot, t[last].before, surge, ChosenNodes(snapshot, surge, spot), spot);
      }
      Prefix(t, last, 0, IsEffect(spot));
      Prefix(t, last, k, IsVolumeFree());
      VolumeFreeOwes(t[..last], k, surge, spot);
    }
  }

  /******* The loop *******/

  /** Where a run stands after some passes: `left` outdated nodes may still have to be
      cordoned, `emptied` says that none is left at all. */
  datatype Progress = Progress(pass: nat, left: nat, emptied: bool, mark: nat)

  /** A run from p, k steps into the trace, is on track. */
  ghost predicate OnTrack(g: Progress, k: nat, p: Pool, t: seq<Step>, q: Pool, surge: nat, spot: bool)
    requires surge >= 1
  {
    && Orderly(t, k, surge, spot)
    && (!spot && CordonBound(p, surge) ==> RestrainedFrom(t, k, surge) && CordonBound(q, surge))
    && (spot || VolumeFreeFrom(t, k) ==> Counted(g, |Old(p)|, q, surge))
    && (g.pass == 0 ==> q == p && |t| == k)
    && Old(q) <= Old(p)
    && (g.pass > 0 ==> Scaled(g.mark, k, p, t, surge, spot))
    && (g.pass > 0 && !spot ==> RaisedFrom(t, g.mark) == OwedFrom(t, g.mark, surge))
  }

  /** The first scale-out had finished when the trace was `mark` steps long. */
  ghost predicate Scaled(mark: nat, k: nat, p: Pool, t: seq<Step>, surge: nat, spot: bool) {
    k < mark <= |t| && ScalesOut(t[..mark], k) && (!spot ==> ScaledOutPool(p, t[mark - 1].after, surge))
  }

  ghost predicate Counted(g: Progress, outdated: nat, q: Pool, surge: nat)
    requires surge >= 1
  {
    && g.pass + Rounds(g.left, surge) + (if g.emptied then 0 else 1) <= Rounds(outdated, surge) + 1
    && |Uncordoned(q)| <= g.left
    && (g.emptied ==> Old(q) == {})
  }

  function Next(g: Progress, m: nat, surge: nat): Progress {
    Progress(g.pass + 1, Max(0, g.left - surge), g.left == 0, if g.pass == 0 then m else g.mark)
  }

  /** One more pass, whatever came of it. */
  lemma PassKeeps(g: Progress, k: nat, p: Pool, t: seq<Step>, q: Pool,
                  outcome: PassOutcome, m: nat, u: seq<Step>, r: Pool, surge: nat, spot: bool)
    requires surge >= 1 && k <= |t| && t <= u && OnTrack(g, k, p, t, q, surge, spot)
    requires Chain(u, spot) && Marked(t, |t|, q) && Marked(u, |u|, r)
    requires PassFacts(outcome, m, |t|, q, u, r, surge, spot)
    ensures Orderly(u, k, surge, spot)
    ensures !spot && CordonBound(p, surge) ==> RestrainedFrom(u, k, surge) && CordonBound(r, surge)
    ensures VolumeFreeFrom(u, k) ==> VolumeFreeFrom(t, k) && VolumeFreeFrom(u, |t|)
  {
    PassJoin(t, u, k, surge, spot);
    if !spot && CordonBound(p, surge) {
      assert Marked(u, |t|, q);
      CordonBoundSince(u, |t|, q, r, surge);
    }
  }

  /** The first scale-out, seen from later. */
  lemma ScaledLater(mark: nat, k: nat, p: Pool, t: seq<Step>, u: seq<Step>, surge: nat, spot: bool)
    requires Scaled(mark, k, p, t, surge, spot) && t <= u
    ensures Scaled(mark, k, p, u, surge, spot)
  {
    assert u[..mark] == t[..mark] && u[mark - 1] == t[mark - 1];
  }

  /** Another unfinished pass brings the update forward. */
  lemma PassAdvances(g: Progress, k: nat, p: Pool, t: seq<Step>, q: Pool,
                     m: nat, u: seq<Step>, r: Pool, surge: nat, spot: bool)
    requires surge >= 1 && k <= |t| && t <= u && OnTrack(g, k, p, t, q, surge, spot)
    requires Chain(t, spot) && Chain(u, spot) && Marked(t, |t|, q) && Marked(u, |u|, r)
    requires PassFacts(Again, m, |t|, q, u, r, surge, spot)
    ensures OnTrack(Next(g, m, surge), k, p, u, r, surge, spot)
  {
    PassKeeps(g, k, p, t, q, Again, m, u, r, surge, spot);
    if !spot {
      RaisesWhatIsOwed(g, k, p, t, q, Again, m, u, r, surge);
    }
    if spot || VolumeFreeFrom(u, k) {
      CountAdvances(g, |Old(p)|, q, r, m, surge);
    }
    if g.pass > 0 {
      ScaledLater(g.mark, k, p, t, u, surge, spot);
    }
  }

  /** Every unfinished pass brings down the number of outdated nodes plus that of the
      outdated nodes that are not yet cordoned. */
  lemma PassDecreases(m: nat, k: nat, p: Pool, t: seq<Step>, q: Pool, surge: nat, spot: bool)
    requires surge >= 1 && PassFacts(Again, m, k, p, t, q, surge, spot) && (spot || VolumeFreeFrom(t, k))
    ensures |Old(q)| + |Uncordoned(q)| < |Old(p)| + |Uncordoned(p)|
  {
    SubsetSize(Old(q), Uncordoned(p));
    SubsetSize(Uncordoned(p), Old(p));
    assert |Old(p)| > 0;
  }

  lemma CountAdvances(g: Progress, outdated: nat, q: Pool, r: Pool, m: nat, surge: nat)
    requires surge >= 1 && Counted(g, outdated, q, surge) && Old(q) != {}
    requires Old(r) <= Uncordoned(q) && |Uncordoned(r)| <= Max(0, |Uncordoned(q)| - surge)
    ensures Counted(Next(g, m, surge), outdated, r, surge)
  {
  }

  /** Once scaled out, a pool is scaled only by what the choices ask for. */
  lemma RaisesWhatIsOwed(g: Progress, k: nat, p: Pool, t: seq<Step>, q: Pool,
                         outcome: PassOutcome, m: nat, u: seq<Step>, r: Pool, surge: nat)
    requires surge >= 1 && k <= |t| && t <= u && OnTrack(g, k, p, t, q, surge, false)
    requires Chain(t, false) && Chain(u, false) && Marked(t, |t|, q) && Marked(u, |u|, r)
    requires PassFacts(outcome, m, |t|, q, u, r, surge, false)
    ensures var mark := MarkOf(g, m, |u|); Raises(u, mark, OwedFrom(u, mark, surge), !outcome.Broken?)
  {
    if g.pass > 0 {
      LargeEnoughSince(g.mark, k, p, t, q, surge);
      LaterPass(g.mark, t, q, outcome, m, u, r, surge);
    } else {
      FirstPass(|t|, q, outcome, m, u, r, surge);
    }
  }

  lemma FirstPass(k: nat, q: Pool, outcome: PassOutcome, m: nat, u: seq<Step>, r: Pool, surge: nat)
    requires PassFacts(outcome, m, k, q, u, r, surge, false)
    ensures var mark := if m > 0 then m else |u|; Raises(u, mark, OwedFrom(u, mark, surge), !outcome.Broken?)
  {
  }

  lemma LargeEnoughSince(mark: nat, k: nat, p: Pool, t: seq<Step>, q: Pool, surge: nat)
    requires Scaled(mark, k, p, t, surge, false) && Marked(t, |t|, q) && Old(q) <= Old(p)
    requires Chain(t, false) && Orderly(t, k, surge, false) && RaisedFrom(t, mark) >= 0
    ensures ScaledOut(|Old(q)|, q.desired, surge) == q.desired
  {
    LedgerFrom(k, p, mark, t, q, surge);
    LargeEnough(p, q, surge);
  }

  /** A pass over a pool that is large enough adds what its choice asks for. */
  lemma LaterPass(mark: nat, t: seq<Step>, q: Pool, outcome: PassOutcome, m: nat, u: seq<Step>, r: Pool, surge: nat)
    requires mark <= |t| && t <= u && RaisedFrom(t, mark) == OwedFrom(t, mark, surge)
    requires ScaledOut(|Old(q)|, q.desired, surge) == q.desired
    requires Chain(u, false) && Marked(t, |t|, q) && Marked(u, |u|, r)
    requires PassFacts(outcome, m, |t|, q, u, r, surge, false)
    ensures Raises(u, mark, OwedFrom(u, mark, surge), !outcome.Broken?)
  {
    assert Marked(u, |t|, q);
    if m > 0 {
      IdleScaleOut(|t|, q, m, u, u[m - 1].after, surge);
    } else {
      assert u[..|u|] == u;
      IdleScaleOut(|t|, q, |u|, u, r, surge);
    }
    IncreaseJoin(t, u, mark, surge);
  }

  /** A scale-out that changes nothing can be left out of the account. */
  lemma IdleScaleOut(k: nat, q: Pool, n: nat, u: seq<Step>, r: Pool, surge: nat)
    requires k <= n <= |u| && Marked(u, k, q) && Marked(u, n, r) && ScalesOut(u[..n], k) && Chain(u, false)
    requires Old(r) == Old(q) && r.desired == q.desired
    ensures RaisedFrom(u, k) == RaisedFrom(u, n) && OwedFrom(u, k, surge) == OwedFrom(u, n, surge)
  {
    NothingToRaise(k, q, n, u, r, surge);
    OwedSince(u, k, n, surge);
    RaisedJoin(u, k, n);
  }

  /** What a run of `Update` from p to q, from step k of the trace t on, promises. */
  ghost predicate RunFacts(outcome: Outcome, mark: nat, k: nat, p: Pool, t: seq<Step>, q: Pool, surge: nat,
                           spot: bool) {
    && Orderly(t, k, surge, spot)
    && ScaledOutAt(mark, k, p, t, q, surge, spot)
    && (!spot && CordonBound(p, surge) ==> RestrainedFrom(t, k, surge) && CordonBound(q, surge))
    && (!spot && CordonBound(p, surge) ==> HeldFrom(t, mark, Target(|Old(p)|, p.desired, surge), surge))
    && (!spot ==> Raises(t, mark, OwedFrom(t, k, surge), outcome.Updated?))
    && (outcome.Updated? ==> Old(q) == {})
    && (outcome.Updated? && !spot ==> q.desired == Target(|Old(p)|, p.desired, surge) + OwedFrom(t, k, surge))
  }

  /** The rolling update. The context is cancelled after `deadline` passes; it may
      also be cancelled, and any call may fail, in between, unless the cloud is reliable.
      `mark` is the length of the trace when the first scale-out had finished. */
  method Update(c: Cloud, maxSize: int, configured: nat, deadline: nat) returns (outcome: Outcome, ghost mark: nat)
    requires c.Valid() && configured >= 1
    modifies c
    ensures c.Valid() && old(c.trace) <= c.trace
    ensures maxSize < 1 ==> outcome.Updated? && c.pool == old(c.pool) && c.trace == old(c.trace)
    ensures maxSize >= 1 ==>
      RunFacts(outcome, mark, |old(c.trace)|, old(c.pool), c.trace, c.pool, Surge(maxSize, configured), c.spot)
    ensures outcome.Cancelled? && (c.spot || VolumeFreeFrom(c.trace, |old(c.trace)|)) ==>
      maxSize >= 1 && deadline < Rounds(|Old(old(c.pool))|, Surge(maxSize, configured)) + 2
    ensures outcome.Failed? && c.reliable && !c.spot ==> TimedOut(c.trace, |old(c.trace)|)
  {
    mark := |c.trace|;
    if maxSize < 1 {
      return Updated, mark;
    }
    var surge := Surge(maxSize, configured);
    ghost var k, p := |c.trace|, c.pool;
    ghost var g := Progress(0, |Old(p)|, false, 0);
    OnTrackAtFirst(k, p, c.trace, surge, c.spot);
    for pass := 0 to deadline
      invariant c.Valid() && old(c.trace) <= c.trace
      invariant g.pass == pass && OnTrack(g, k, p, c.trace, c.pool, surge, c.spot)
    {
      var result;
      result, g, mark := TakePass(c, surge, g, k, p);
      if !result.Again? {
        outcome := if result.Done? then Updated else Failed;
        return;
      }
    }
    outcome := Cancelled;
    mark := MarkOf(g, 0, |c.trace|);
    RunCancelled(g, k, p, c.trace, c.pool, surge, c.spot);
  }

  lemma OnTrackAtFirst(k: nat, p: Pool, t: seq<Step>, surge: nat, spot: bool)
    requires surge >= 1 && k == |t|
    ensures OnTrack(Progress(0, |Old(p)|, false, 0), k, p, t, p, surge, spot)
  {
    SubsetSize(Uncordoned(p), Old(p));
  }

  /** One pass of a run that is on track: it stays so, or the run ends. */
  method TakePass(c: Cloud, surge: nat, ghost g: Progress, ghost k: nat, ghost p: Pool)
    returns (result: PassOutcome, ghost next: Progress, ghost mark: nat)
    requires c.Valid() && surge >= 1 && k <= |c.trace| && OnTrack(g, k, p, c.trace, c.pool, surge, c.spot)
    modifies c
    ensures c.Valid() && old(c.trace) <= c.trace
    ensures result.Again? ==> next.pass == g.pass + 1 && OnTrack(next, k, p, c.trace, c.pool, surge, c.spot)
    ensures !result.Again? ==>
      RunFacts(if result.Done? then Updated else Failed, mark, k, p, c.trace, c.pool, surge, c.spot)
    ensures result.Broken? && c.reliable && !c.spot ==> TimedOut(c.trace, |old(c.trace)|)
  {
    ghost var m;
    c.LastState();
    result, m := Pass(c, surge);
    c.LastState();
    next, mark := Next(g, m, surge), MarkOf(g, m, |c.trace|);
    if result.Again? {
      PassAdvances(g, k, p, old(c.trace), old(c.pool), m, c.trace, c.pool, surge, c.spot);
    } else {
      RunEnds(g, k, p, old(c.trace), old(c.pool), result, m, c.trace, c.pool, surge, c.spot);
    }
  }

  /** Where the first scale-out had finished, or else the end. */
  function MarkOf(g: Progress, m: nat, end: nat): nat {
    if g.pass > 0 then g.mark else if m > 0 then m else end
  }

  lemma RunCancelled(g: Progress, k: nat, p: Pool, t: seq<Step>, q: Pool, surge: nat, spot: bool)
    requires surge >= 1 && k <= |t| && OnTrack(g, k, p, t, q, surge, spot) && Chain(t, spot) && Marked(t, |t|, q)
    ensures RunFacts(Cancelled, MarkOf(g, 0, |t|), k, p, t, q, surge, spot)
  {
    if g.pass == 0 {
      NothingDone(k, p, t, surge, spot);
    } else {
      StillScaledOut(g.mark, k, p, t, q, surge, spot);
      if !spot {
        OwedSince(t, k, g.mark, surge);
        if CordonBound(p, surge) {
          Floor(k, p, g.mark, t, q, surge);
        }
      }
    }
  }

  lemma NothingDone(k: nat, p: Pool, t: seq<Step>, surge: nat, spot: bool)
    requires |t| == k
    ensures RunFacts(Cancelled, k, k, p, t, p, surge, spot)
  {
    assert t[..|t|] == t;
  }

  lemma RunEnds(g: Progress, k: nat, p: Pool, t: seq<Step>, q: Pool,
                result: PassOutcome, m: nat, u: seq<Step>, r: Pool, surge: nat, spot: bool)
    requires surge >= 1 && k <= |t| && t <= u && OnTrack(g, k, p, t, q, surge, spot)
    requires Chain(t, spot) && Chain(u, spot) && Marked(t, |t|, q) && Marked(u, |u|, r)
    requires !result.Again? && PassFacts(result, m, |t|, q, u, r, surge, spot)
    ensures RunFacts(if result.Done? then Updated else Failed, MarkOf(g, m, |u|), k, p, u, r, surge, spot)
  {
    var mark := MarkOf(g, m, |u|);
    PassKeeps(g, k, p, t, q, result, m, u, r, surge, spot);
    EndsScaledOut(g, k, p, t, result, m, u, r, surge, spot);
    if !spot {
      RaisesWhatIsOwed(g, k, p, t, q, result, m, u, r, surge);
      OwedSince(u, k, mark, surge);
      if CordonBound(p, surge) {
        Floor(k, p, mark, u, r, surge);
      }
      if result.Done? {
        FinalSize(k, p, mark, u, r, surge);
      }
    }
  }

  /** Where the first scale-out of a run that has ended had finished. */
  lemma EndsScaledOut(g: Progress, k: nat, p: Pool, t: seq<Step>,
                      result: PassOutcome, m: nat, u: seq<Step>, r: Pool, surge: nat, spot: bool)
    requires k <= |t| && t <= u && Marked(u, |u|, r) && (result.Done? ==> g.pass > 0 || m > 0)
    requires g.pass > 0 ==> Scaled(g.mark, k, p, t, surge, spot)
    requires g.pass == 0 ==> PassFacts(result, m, k, p, u, r, surge, spot)
    ensures ScaledOutAt(MarkOf(g, m, |u|), k, p, u, r, surge, spot)
    ensures result.Done? ==> Scaled(MarkOf(g, m, |u|), k, p, u, surge, spot)
  {
    if g.pass > 0 {
      ScaledLater(g.mark, k, p, t, u, surge, spot);
      StillScaledOut(g.mark, k, p, u, r, surge, spot);
    } else {
      FirstScaleOut(k, p, result, m, u, r, surge, spot);
      if m > 0 {
        StillScaledOut(m, k, p, u, r, surge, spot);
      }
    }
  }

  lemma StillScaledOut(mark: nat, k: nat, p: Pool, u: seq<Step>, r: Pool, surge: nat, spot: bool)
    requires Scaled(mark, k, p, u, surge, spot) && Marked(u, |u|, r)
    ensures ScaledOutAt(mark, k, p, u, r, surge, spot)
  {
  }

  lemma FirstScaleOut(k: nat, p: Pool, result: PassOutcome, m: nat, u: seq<Step>, r: Pool, surge: nat, spot: bool)
    requires k <= |u| && PassFacts(result, m, k, p, u, r, surge, spot)
    ensures m > 0 ==> Scaled(m, k, p, u, surge, spot)
    ensures m == 0 ==> ScaledOutAt(|u|, k, p, u, r, surge, spot)
  {
    assert u[..|u|] == u;
  }

  /** A finished update is at its target, but for what was scaled after the scale-out. */
  lemma FinalSize(k: nat, p: Pool, mark: nat, u: seq<Step>, r: Pool, surge: nat)
    requires 0 < mark && k <= mark <= |u| && ScaledOutPool(p, u[mark - 1].after, surge) && Marked(u, |u|, r)
    requires Old(r) == {}
    requires Chain(u, false) && Orderly(u, k, surge, false)
    ensures r.desired == Target(|Old(p)|, p.desired, surge) + RaisedFrom(u, mark)
  {
    LedgerFrom(k, p, mark, u, r, surge);
  }

  /******* Restarts *******/

  /** Availability across restarts: what one run has reached holds through every
      later run over the same pool, however often the update is cut short. */
  lemma FloorSurvives(t: seq<Step>, mark: nat, u: seq<Step>, floor: int, surge: nat)
    requires 0 < mark < |t| && t <= u && Chain(u, false)
    requires HeldFrom(t, mark, floor, surge)
    requires Orderly(u, |t|, surge, false) && RestrainedFrom(u, |t|, surge)
    ensures HeldFrom(u, mark, floor, surge)
  {
    At(t, mark, Holds(floor, surge), |t| - 1);
    forall i | mark <= i < |u| ensures Holds(floor, surge)(u[i]) {
      if i < |t| {
        At(t, mark, Holds(floor, surge), i);
      } else {
        AvailableSince(u, |t|, t[|t| - 1].after, surge, floor, i);
      }
    }
  }

  /** Outdated nodes only ever become fewer. */
  lemma {:induction false} OldOnlyShrinks(t: seq<Step>, k: nat)
    requires k < |t| && Chain(t, false)
    ensures Old(t[|t| - 1].after) <= Old(t[k].before)
  {
    var last := |t| - 1;
    OldShrinksAt(t, last);
    if last > k {
      Prefix(t, last, 0, IsEffect(false));
      OldOnlyShrinks(t[..last], k);
      assert t[last - 1].after == t[last].before;
    }
  }

  lemma OldShrinksAt(t: seq<Step>, i: nat)
    requires i < |t| && Chain(t, false)
    ensures Old(t[i].after) <= Old(t[i].before)
  {
    At(t, 0, IsEffect(false), i);
    OldAfter(t[i]);
  }

  /** A scale-out that starts where another one broke off has the same aim. */
  lemma SameAim(p: Pool, q: Pool, r: Pool, surge: nat)
    requires HalfScaledOut(p, q, surge)
    ensures Target(|Old(q)|, q.desired, surge) == Target(|Old(p)|, p.desired, surge)
    ensures CordonBound(p, surge) <==> CordonBound(q, surge)
    ensures ScaledOutPool(q, r, surge) <==> ScaledOutPool(p, r, surge)
    ensures HalfScaledOut(q, r, surge) ==> HalfScaledOut(p, r, surge)
  {
  }

  /** The same run, said without its outcome. */
  ghost predicate SoFar(mark: nat, k: nat, p: Pool, t: seq<Step>, q: Pool, surge: nat) {
    && RunFacts(Failed, mark, k, p, t, q, surge, false)
    && CordonBound(p, surge)
  }

  /** Two runs in a row, when the first did not get beyond its scale-out. */
  lemma RunAfterScaleOut(k: nat, p: Pool, t: seq<Step>, q: Pool, outcome: Outcome, m: nat, u: seq<Step>,
                         r: Pool, surge: nat)
    requires k <= |t| && t <= u && SoFar(|t|, k, p, t, q, surge) && RunFacts(outcome, m, |t|, q, u, r, surge, false)
    ensures SoFar(m, k, p, u, r, surge)
  {
    PassJoin(t, u, k, surge, false);
    SameAim(p, q, r, surge);
    if m < |u| {
      SameAim(p, q, u[m - 1].after, surge);
    }
    assert t[..|t|] == t && t <= u[..m];
    ScalesOutJoin(t, u[..m], k);
    IncreaseJoin(t, u, k, surge);
    ScalesOutNoChoice(t, k, surge);
  }

  /** Two runs in a row, when the first did get beyond its scale-out. */
  lemma RunAfterMark(mark: nat, k: nat, p: Pool, t: seq<Step>, q: Pool, outcome: Outcome, m: nat,
                     u: seq<Step>, r: Pool, surge: nat)
    requires k <= |t| && mark < |t| && t <= u && SoFar(mark, k, p, t, q, surge)
    requires RunFacts(outcome, m, |t|, q, u, r, surge, false)
    requires Chain(t, false) && Chain(u, false) && Marked(t, |t|, q) && Marked(u, |u|, r) && Marked(t, k, p)
    ensures SoFar(mark, k, p, u, r, surge)
  {
    PassJoin(t, u, k, surge, false);
    ScaledLater(mark, k, p, t, u, surge, false);
    StillScaledOut(mark, k, p, u, r, surge, false);
    FloorSurvives(t, mark, u, Target(|Old(p)|, p.desired, surge), surge);
    LaterRunRaises(mark, k, p, t, q, outcome, m, u, r, surge);
  }

  lemma LaterRunRaises(mark: nat, k: nat, p: Pool, t: seq<Step>, q: Pool, outcome: Outcome, m: nat,
                       u: seq<Step>, r: Pool, surge: nat)
    requires k <= |t| && mark < |t| && t <= u && SoFar(mark, k, p, t, q, surge)
    requires RunFacts(outcome, m, |t|, q, u, r, surge, false)
    requires Chain(t, false) && Chain(u, false) && Marked(t, |t|, q) && Marked(u, |u|, r) && Marked(t, k, p)
    ensures Raises(u, mark, OwedFrom(u, k, surge), false)
  {
    assert t[k - 1].after == t[k].before;
    OldOnlyShrinks(t, k);
    LargeEnoughSince(mark, k, p, t, q, surge);
    assert Marked(u, |t|, q);
    IdleScaleOut(|t|, q, m, u, u[m - 1].after, surge);
    IncreaseJoin(t, u, mark, surge);
    IncreaseJoin(t, u, k, surge);
  }

  /** The update as the controller runs it: again and again, each time until it is done,
      fails or is cancelled. All of that together promises what one run does, from the pool
      that the first run found, except that scaling for a zone may have been cut short. */
  method UpdateAgain(c: Cloud, maxSize: int, configured: nat, deadlines: seq<nat>)
    returns (outcome: Outcome, ghost mark: nat)
    requires c.Valid() && configured >= 1 && maxSize >= 1 && !c.spot
    requires CordonBound(c.pool, Surge(maxSize, configured))
    modifies c
    ensures c.Valid() && old(c.trace) <= c.trace
    ensures SoFar(mark, |old(c.trace)|, old(c.pool), c.trace, c.pool, Surge(maxSize, configured))
    ensures var p := old(c.pool); var surge := Surge(maxSize, configured);
      && (outcome.Updated? ==>
            Old(c.pool) == {} && c.pool.desired == Target(|Old(p)|, p.desired, surge) + RaisedFrom(c.trace, mark))
      && (deadlines != [] ==>
            Ended(outcome, deadlines, |deadlines|, |old(c.trace)|, p, c.trace, surge, c.reliable))
  {
    var surge := Surge(maxSize, configured);
    ghost var k, p := |c.trace|, c.pool;
    outcome, mark := Cancelled, k;
    assert c.trace[..k] == c.trace;
    for run := 0 to |deadlines|
      invariant c.Valid() && old(c.trace) <= c.trace && !outcome.Updated?
      invariant SoFar(mark, k, p, c.trace, c.pool, surge)
      invariant run > 0 ==> Ended(outcome, deadlines, run, k, p, c.trace, surge, c.reliable)
    {
      outcome, mark := RunOnce(c, maxSize, configured, deadlines, run, mark, k, p);
      if outcome.Updated? {
        return;
      }
    }
  }

  /** How the last of some runs ended: without faults one fails only after a wait that timed
      out, and without volumes it is cancelled only if it had too few passes. */
  ghost predicate Ended(outcome: Outcome, deadlines: seq<nat>, runs: nat, k: nat, p: Pool, t: seq<Step>,
                        surge: nat, reliable: bool)
    requires 0 < runs <= |deadlines| && surge >= 1
  {
    && (outcome.Failed? && reliable ==> TimedOut(t, k))
    && (outcome.Cancelled? && VolumeFreeFrom(t, k) ==> deadlines[runs - 1] < Rounds(|Old(p)|, surge) + 2)
  }

  lemma {:induction false} FewerRounds(a: nat, b: nat, surge: nat)
    requires surge >= 1 && a <= b
    ensures Rounds(a, surge) <= Rounds(b, surge)
  {
    if a > 0 {
      FewerRounds(Max(0, a - surge), Max(0, b - surge), surge);
    }
  }

  /** One more run. */
  method RunOnce(c: Cloud, maxSize: int, configured: nat, deadlines: seq<nat>, run: nat, ghost mark: nat,
                 ghost k: nat, ghost p: Pool)
    returns (outcome: Outcome, ghost mark': nat)
    requires run < |deadlines|
    requires c.Valid() && configured >= 1 && maxSize >= 1 && !c.spot && k <= |c.trace| && Marked(c.trace, k, p)
    requires SoFar(mark, k, p, c.trace, c.pool, Surge(maxSize, configured))
    modifies c
    ensures c.Valid() && old(c.trace) <= c.trace
    ensures SoFar(mark', k, p, c.trace, c.pool, Surge(maxSize, configured))
    ensures outcome.Updated? ==>
      && Old(c.pool) == {}
      && c.pool.desired == Target(|Old(p)|, p.desired, Surge(maxSize, configured)) + RaisedFrom(c.trace, mark')
    ensures Ended(outcome, deadlines, run + 1, k, p, c.trace, Surge(maxSize, configured), c.reliable)
  {
    ghost var t, q, m := c.trace, c.pool, 0;
    c.LastState();
    outcome, m := Update(c, maxSize, configured, deadlines[run]);
    c.LastState();
    var surge := Surge(maxSize, configured);
    RunEnded(outcome, deadlines[run], k, p, t, q, c.trace, surge);
    if mark == |t| {
      RunAfterScaleOut(k, p, t, q, outcome, m, c.trace, c.pool, surge);
      mark' := m;
    } else {
      RunAfterMark(mark, k, p, t, q, outcome, m, c.trace, c.pool, surge);
      mark' := mark;
    }
    if outcome.Updated? {
      FinalSizeSoFar(mark', k, p, c.trace, c.pool, surge);
    }
  }

  /** A run that starts later has no more rounds to go, and fewer steps to be free of volumes. */
  lemma RunEnded(outcome: Outcome, deadline: nat, k: nat, p: Pool, t: seq<Step>, q: Pool, u: seq<Step>, surge: nat)
    requires surge >= 1 && k <= |t| && Marked(t, k, p) && Marked(t, |t|, q) && Chain(t, false)
    requires outcome.Cancelled? && VolumeFreeFrom(u, |t|) ==> deadline < Rounds(|Old(q)|, surge) + 2
    ensures outcome.Cancelled? && VolumeFreeFrom(u, k) ==> deadline < Rounds(|Old(p)|, surge) + 2
  {
    if k < |t| {
      assert t[k - 1].after == t[k].before;
      OldOnlyShrinks(t, k);
    }
    SubsetSize(Old(q), Old(p));
    FewerRounds(|Old(q)|, |Old(p)|, surge);
    if VolumeFreeFrom(u, k) {
      Later(u, k, |t|, IsVolumeFree());
    }
  }

  lemma FinalSizeSoFar(mark: nat, k: nat, p: Pool, t: seq<Step>, q: Pool, surge: nat)
    requires SoFar(mark, k, p, t, q, surge) && Old(q) == {} && Chain(t, false) && Marked(t, |t|, q)
    ensures q.desired == Target(|Old(p)|, p.desired, surge) + RaisedFrom(t, mark)
  {
    if mark < |t| {
      FinalSize(k, p, mark, t, q, surge);
    }
  }
}
