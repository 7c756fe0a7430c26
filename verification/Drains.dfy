/** Draining a node: pods are evicted, and those whose disruption budget does not allow
    that are deleted by force, not too early and not too often. What limits this has to
    survive restarts, through two annotations on the node. Times are in nanoseconds. */
module Drains {
  import opened Options

  const SECOND := 1_000_000_000

  datatype Config = Config(
    gracePeriod: int, minPodLifetime: int,
    minHealthySiblingLifetime: int, minUnhealthySiblingLifetime: int, interval: int)

  datatype Condition = Condition(kind: string, status: string)

  datatype Pod = Pod(
    name: string, labels: map<string, string>, created: int, conditions: seq<Condition>, phase: string,
    owners: seq<string>, mirror: bool)

  /** A disruption budget, with its selector if that is valid. */
  datatype Budget = Budget(selector: Option<map<string, string> -> bool>)

  /******* Deciding *******/

  /** The first condition that says whether the pod is ready. */
  function PodReady(p: Pod): (r: bool) {
    ReadyIn(p.conditions)
  }

  function ReadyIn(cs: seq<Condition>): bool {
    cs != [] && if cs[0].kind == "Ready" then cs[0].status == "True" else ReadyIn(cs[1..])
  }

  predicate Terminated(p: Pod) {
    p.phase == "Succeeded" || p.phase == "Failed"
  }

  predicate Ignored(p: Pod) {
    Terminated(p) || "Job" in p.owners
  }

  predicate Evictable(p: Pod) {
    !p.mirror && !Terminated(p) && "DaemonSet" !in p.owners
  }

  /** The first of a pod's conditions about being ready is true. */
  ghost predicate IsReady(p: Pod) {
    exists i :: 0 <= i < |p.conditions| && FirstReady(p.conditions, i) && p.conditions[i].status == "True"
  }

  ghost predicate FirstReady(cs: seq<Condition>, i: nat)
    requires i < |cs|
  {
    cs[i].kind == "Ready" && forall j :: 0 <= j < i ==> cs[j].kind != "Ready"
  }

  lemma {:induction false} ReadyFound(cs: seq<Condition>)
    ensures ReadyIn(cs) <==> exists i :: 0 <= i < |cs| && FirstReady(cs, i) && cs[i].status == "True"
  {
    if cs != [] {
      var rest := cs[1..];
      ReadyFound(rest);
      assert forall i :: 0 <= i < |rest| ==> rest[i] == cs[i + 1];
      if cs[0].kind == "Ready" {
        assert FirstReady(cs, 0);
      } else if ReadyIn(rest) {
        var i :| 0 <= i < |rest| && FirstReady(rest, i) && rest[i].status == "True";
        assert FirstReady(cs, i + 1);
      } else if i :| 0 <= i < |cs| && FirstReady(cs, i) && cs[i].status == "True" {
        assert FirstReady(rest, i - 1);
      }
    }
  }

  predicate Selects(b: Budget, labels: map<string, string>) {
    b.selector.Some? && b.selector.value(labels)
  }

  /** Another pod that counts for a disruption budget of this one. */
  ghost predicate Sibling(p: Pod, budgets: seq<Budget>, q: Pod) {
    && q.name != p.name
    && q.phase != "Succeeded" && q.phase != "Failed" && "Job" !in q.owners
    && exists b :: b in budgets && b.selector.Some? && b.selector.value(p.labels) && b.selector.value(q.labels)
  }

  ghost function Siblings(p: Pod, budgets: seq<Budget>, pods: seq<Pod>): seq<Pod> {
    if pods == [] then [] else
      var q := pods[|pods| - 1];
      Siblings(p, budgets, pods[..|pods| - 1]) + if Sibling(p, budgets, q) then [q] else []
  }

  lemma {:induction false} SiblingsAre(p: Pod, budgets: seq<Budget>, pods: seq<Pod>)
    ensures forall q :: q in Siblings(p, budgets, pods) <==> q in pods && Sibling(p, budgets, q)
  {
    if pods != [] {
      SiblingsAre(p, budgets, pods[..|pods| - 1]);
      assert pods == pods[..|pods| - 1] + [pods[|pods| - 1]];
    }
  }

  /** `findSiblingPods`. */
  method FindSiblingPods(p: Pod, pods: seq<Pod>, budgets: seq<Budget>) returns (r: seq<Pod>)
    ensures r == Siblings(p, budgets, pods)
  {
    var selecting: seq<Budget> := [];
    for i := 0 to |budgets|
      invariant forall b :: b in selecting <==> b in budgets[..i] && Selects(b, p.labels)
    {
      assert budgets[..i + 1] == budgets[..i] + [budgets[i]];
      if Selects(budgets[i], p.labels) {
        selecting := selecting + [budgets[i]];
      }
    }
    assert budgets[..|budgets|] == budgets;
    r := [];
    for i := 0 to |pods|
      invariant r == Siblings(p, budgets, pods[..i])
    {
      assert pods[..i + 1][..i] == pods[..i];
      var q := pods[i];
      var found := false;
      if q.name != p.name && !Ignored(q) {
        var j := 0;
        while j < |selecting| && !found
          invariant 0 <= j <= |selecting|
          invariant found <==> exists b :: b in selecting[..j] && Selects(b, q.labels)
        {
          assert selecting[..j + 1] == selecting[..j] + [selecting[j]];
          found := Selects(selecting[j], q.labels);
          j := j + 1;
        }
        assert found <==> exists b :: b in selecting && Selects(b, q.labels) by {
          assert !found ==> selecting[..j] == selecting;
        }
      }
      if found {
        r := r + [q];
      }
    }
    assert pods[..|pods|] == pods;
  }

  function SiblingLifetime(cfg: Config, q: Pod): int {
    if PodReady(q) then cfg.minHealthySiblingLifetime else cfg.minUnhealthySiblingLifetime
  }

  /** A pod has reached the age at which one of the same disruption budget may be deleted. */
  ghost predicate OldEnough(cfg: Config, q: Pod, now: int) {
    if IsReady(q) then now >= q.created + cfg.minHealthySiblingLifetime
    else now >= q.created + cfg.minUnhealthySiblingLifetime
  }

  /** Everything that a forced deletion has to wait for. */
  ghost predicate Ripe(cfg: Config, p: Pod, now: int, drainStart: int, lastForced: int, pods: seq<Pod>,
                       budgets: seq<Budget>) {
    && now >= drainStart + cfg.gracePeriod
    && now >= lastForced + cfg.interval
    && now >= p.created + cfg.minPodLifetime
    && forall q :: q in pods && Sibling(p, budgets, q) ==> OldEnough(cfg, q, now)
  }

  /** `forceTerminationAllowed`, given what the API server answers about pods and budgets. */
  method ForceTerminationAllowed(cfg: Config, p: Pod, now: int, drainStart: int, lastForced: int,
                                 pods: Option<seq<Pod>>, budgets: Option<seq<Budget>>) returns (allowed: bool)
    ensures allowed <==>
      pods.Some? && budgets.Some? && Ripe(cfg, p, now, drainStart, lastForced, pods.value, budgets.value)
  {
    if now < drainStart + cfg.gracePeriod {
      return false;
    }
    if now < lastForced + cfg.interval {
      return false;
    }
    if now < p.created + cfg.minPodLifetime {
      return false;
    }
    if pods.None? || budgets.None? {
      return false;
    }
    var siblings := FindSiblingPods(p, pods.value, budgets.value);
    SiblingsAre(p, budgets.value, pods.value);
    for i := 0 to |siblings|
      invariant forall j :: 0 <= j < i ==> OldEnough(cfg, siblings[j], now)
    {
      ReadyFound(siblings[i].conditions);
      if now < siblings[i].created + SiblingLifetime(cfg, siblings[i]) {
        assert siblings[i] in siblings;
        return false;
      }
    }
    return true;
  }

  /******* Timestamps *******/

  /** An annotation as section 5.6 of RFC 3339 writes it, or something else. */
  datatype Stamp = Absent | Invalid | At(time: int)

  /** Formatting drops the fraction of the second. */
  function Format(t: int): Stamp {
    At(t - t % SECOND)
  }

  function TimestampAnnotation(s: Stamp, fallback: int): int {
    if s.At? then s.time else fallback
  }

  /** Less than a second is lost by storing a time, and nothing by storing it again. */
  lemma StoredTime(t: int, fallback: int)
    ensures var stored := TimestampAnnotation(Format(t), fallback);
      t - SECOND < stored <= t && stored % SECOND == 0 && Format(stored) == Format(t)
  {
  }

  lemma StoredBetween(s: Stamp, t: int)
    requires s.At? && Format(t).time <= s.time <= t && Format(s.time) == s
    ensures s == Format(t)
  {
  }

  /******* Runs *******/

  /** A forced deletion: when, in which run, and whether its time was then stored; which
      pod, and the pods and budgets on which it was decided when. */
  datatype Forced = Forced(
    at: int, run: nat, stored: bool, pod: Pod, decided: int, others: seq<Pod>, budgets: seq<Budget>)

  /** Successive forced deletions are an interval apart; a restart in between costs less
      than a second of that, if the time of the earlier one was stored. */
  ghost predicate Paced(forced: seq<Forced>, interval: int) {
    forall i :: 0 < i < |forced| ==> Apart(forced[i - 1], forced[i], interval)
  }

  ghost predicate Apart(f: Forced, g: Forced, interval: int) {
    && (f.run == g.run ==> g.at >= f.at + interval)
    && (f.stored ==> g.at > f.at + interval - SECOND)
  }

  /** No forced deletion before the grace period is over; runs after the one in which the
      drain began may be early by less than a second, however many there are. */
  ghost predicate Patient(forced: seq<Forced>, began: int, beganIn: nat, grace: int) {
    forall f :: f in forced ==> f.at > began + grace - SECOND && (f.run == beganIn ==> f.at >= began + grace)
  }

  /** The pod and its siblings were old enough when the deletion was decided. */
  ghost predicate Ripened(f: Forced, cfg: Config) {
    && f.decided <= f.at
    && f.decided >= f.pod.created + cfg.minPodLifetime
    && forall q :: q in f.others && Sibling(f.pod, f.budgets, q) ==> OldEnough(cfg, q, f.decided)
  }

  /** All the limits of forced deletions. */
  ghost predicate Limited(forced: seq<Forced>, cfg: Config, began: int, beganIn: nat) {
    && Paced(forced, cfg.interval)
    && Patient(forced, began, beganIn, cfg.gracePeriod)
    && forall f :: f in forced ==> Ripened(f, cfg)
  }

  /** A pod that has to leave a node that is drained: it is not a mirror pod, has not come to
      an end, and is not a daemon set's. */
  ghost predicate Movable(p: Pod) {
    !p.mirror && p.phase != "Succeeded" && p.phase != "Failed" && "DaemonSet" !in p.owners
  }

  ghost predicate AllMovable(victims: seq<Pod>) {
    forall p :: p in victims ==> Movable(p)
  }

  /** What one run adds: deletions of its own, of movable pods, made since it began, and their
      times were stored except perhaps for the last, with which the run then failed. */
  ghost predicate AddedBy(run: nat, since: int, before: seq<Forced>, after: seq<Forced>, ok: bool) {
    && before <= after
    && forall i :: |before| <= i < |after| ==>
         && after[i].run == run && after[i].at >= since && Movable(after[i].pod)
         && (ok || i < |after| - 1 ==> after[i].stored)
  }

  lemma LimitedSnoc(forced: seq<Forced>, f: Forced, cfg: Config, began: int, beganIn: nat)
    requires Limited(forced, cfg, began, beganIn) && Ripened(f, cfg)
    requires forced != [] ==> Apart(forced[|forced| - 1], f, cfg.interval)
    requires f.at > began + cfg.gracePeriod - SECOND && (f.run == beganIn ==> f.at >= began + cfg.gracePeriod)
    ensures Limited(forced + [f], cfg, began, beganIn)
  {
  }

  /** The time of the last deletion was stored. */
  ghost function WithStored(forced: seq<Forced>): (r: seq<Forced>)
    requires forced != []
    ensures |r| == |forced| && r[..|r| - 1] == forced[..|r| - 1] && r[|r| - 1] == forced[|r| - 1].(stored := true)
  {
    forced[|forced| - 1 := forced[|forced| - 1].(stored := true)]
  }

  lemma StoredKeeps(forced: seq<Forced>, cfg: Config, began: int, beganIn: nat, run: nat, now: int)
    requires Limited(forced, cfg, began, beganIn) && forced != []
    requires forall f :: f in forced ==> f.run <= run && f.at <= now
    ensures Limited(WithStored(forced), cfg, began, beganIn)
    ensures forall f :: f in WithStored(forced) ==> f.run <= run && f.at <= now
  {
    var r := WithStored(forced);
    var last := forced[|r| - 1];
    assert last in forced;
    assert Ripened(last.(stored := true), cfg);
    forall f | f in r ensures f in forced || f == last.(stored := true) {
      var i :| 0 <= i < |r| && r[i] == f;
    }
  }

  /** One more deletion, whose time is not stored at first. */
  lemma AddedMore(run: nat, since: int, before: seq<Forced>, mid: seq<Forced>, after: seq<Forced>)
    requires AddedBy(run, since, before, mid, true)
    requires |after| == |mid| + 1 && mid <= after && after[|mid|].run == run && after[|mid|].at >= since
    requires Movable(after[|mid|].pod)
    ensures AddedBy(run, since, before, after, false) && AddedBy(run, since, before, WithStored(after), true)
  {
    var stored := WithStored(after);
    assert forall i :: 0 <= i < |mid| ==> after[i] == mid[i] && stored[..|mid|][i] == mid[i];
    assert forall i :: 0 <= i < |mid| ==> stored[i] == stored[..|mid|][i];
  }

  datatype Reply = Nothing | Forcibly | Failed

  datatype Round = Again | Emptied | Broken

  /** What the API server answers: to an eviction, unless that fails, whether the pod was
      evicted or a disruption budget is in the way; and to the questions about other pods and
      budgets. */
  datatype Answers = Answers(evicts: Pod -> Option<bool>, others: Option<seq<Pod>>, budgets: Option<seq<Budget>>)

  /** A node that is drained, possibly in several runs of the program: the pods on it, its
      annotations, the clock, and the forced deletions so far. */
  class DrainedNode {
    const cfg: Config
    /** Whether answers stay the same for a while, and nothing is cancelled or fails. */
    const calm: bool
    var now: int
    var pods: seq<Pod>
    var answers: Answers
    var drainStart: Stamp
    var lastForced: Stamp
    ghost var run: nat
    ghost var began: int
    ghost var beganIn: nat
    ghost var forced: seq<Forced>
    /** How often the pods of the node were listed. */
    ghost var listings: nat

    ghost predicate Valid()
      reads this
    {
      && Limited(forced, cfg, began, beganIn)
      && (forall f :: f in forced ==> f.run <= run && f.at <= now)
      && (drainStart.At? ==> drainStart == Format(began) && began <= now && beganIn <= run)
      && (!drainStart.At? ==> forced == [])
      && (lastForced.At? ==> lastForced.time <= now && Format(lastForced.time) == lastForced)
      && (forced != [] && forced[|forced| - 1].stored ==>
           lastForced.At? && lastForced.time > forced[|forced| - 1].at - SECOND)
    }

    constructor (cfg: Config, calm: bool, now: int, pods: seq<Pod>)
      ensures Valid() && forced == [] && this.cfg == cfg && this.calm == calm && this.now == now && this.pods == pods
    {
      this.cfg, this.calm, this.now, this.pods := cfg, calm, now, pods;
      answers := Answers(_ => None, None, None);
      drainStart, lastForced := Absent, Absent;
      run, began, beganIn, forced, listings := 0, now, 0, [], 0;
    }

    /** Nothing that can be evicted is on the node. */
    ghost predicate Empty()
      reads this`pods
    {
      forall p :: p in pods ==> !Movable(p)
    }

    /** Time passes, and pods come and go. */
    method Pass()
      requires Valid()
      modifies this`now, this`pods, this`answers
      ensures Valid() && now >= old(now)
      ensures calm ==> answers == old(answers)
    {
      var t: int := *;
      if t > now {
        now := t;
      }
      pods := *;
      if !calm {
        answers := *;
      }
    }

    method Fault() returns (fault: bool)
      ensures calm ==> !fault
    {
      fault := *;
      fault := fault && !calm;
    }

    /** Nothing is cancelled or fails, evictions included. */
    ghost predicate Steady()
      reads this
    {
      calm && forall p :: answers.evicts(p).Some?
    }

    /** Nothing fails, but disruption budgets are in the way of every eviction. */
    ghost predicate Stuck()
      reads this
    {
      calm && forall p :: answers.evicts(p) == Some(false)
    }

    /** Nothing but the disruption budgets is in the way of deleting the pod. */
    ghost predicate Deletable(p: Pod, start: int, last: int)
      reads this
    {
      && answers.others.Some? && answers.budgets.Some?
      && Ripe(cfg, p, now, start, last, answers.others.value, answers.budgets.value)
    }

    /** A time that the coming forced deletions have to respect. */
    ghost predicate Covers(last: int)
      reads this`forced, this`run
    {
      forced != [] ==>
        var f := forced[|forced| - 1];
        && (f.run == run ==> last >= f.at)
        && (f.stored ==> last > f.at - SECOND)
    }

    /** The start of the drain as this run knows it. */
    ghost predicate Starts(start: int)
      reads this`drainStart, this`began, this`beganIn, this`run, this`now
    {
      && drainStart == Format(began) && began <= now && beganIn <= run
      && start > began - SECOND && (beganIn == run ==> start == began)
    }

    /** `evictOrForceTerminatePod`: one of the given pods is evicted, or deleted by force
        within all the limits. If nothing fails and none of them can be evicted, then one is
        deleted, provided that one may be. */
    method EvictOrForceTerminatePod(victims: seq<Pod>, start: int, last: int) returns (r: Reply)
      requires Valid() && Starts(start) && Covers(last)
      modifies this`now, this`pods, this`answers, this`forced
      ensures Valid() && Starts(start) && now >= old(now)
      ensures r.Nothing? ==> forced == old(forced)
      ensures r.Forcibly? ==> |forced| == |old(forced)| + 1
      ensures forced == old(forced) || ForcedOne(old(forced), victims, old(now))
      ensures calm && old(AllRefused(victims)) && old(SomeDeletable(victims, start, last)) ==> r.Forcibly?
      ensures old(Steady()) ==> Steady() && !r.Failed?
    {
      for i := 0 to |victims|
        invariant Valid() && Starts(start) && Covers(last) && now >= old(now) && forced == old(forced)
        invariant calm ==> answers == old(answers)
        invariant calm && old(AllRefused(victims)) ==> forall j :: 0 <= j < i ==>
          !old(Deletable(victims[j], start, last))
      {
        var reply := TryPod(victims, i, start, last);
        if reply.Some? {
          return reply.value;
        }
      }
      return Nothing;
    }

    /** Tries one pod; no reply means that the next one is to be tried. */
    method TryPod(victims: seq<Pod>, i: nat, start: int, last: int) returns (r: Option<Reply>)
      requires Valid() && Starts(start) && Covers(last) && i < |victims|
      modifies this`now, this`pods, this`answers, this`forced
      ensures Valid() && Starts(start) && now >= old(now) && (calm ==> answers == old(answers))
      ensures r.None? || r.value.Nothing? ==> forced == old(forced)
      ensures r.None? ==> Covers(last)
      ensures r == Some(Forcibly) ==> |forced| == |old(forced)| + 1
      ensures forced == old(forced) || ForcedOne(old(forced), victims, old(now))
      ensures calm && answers.evicts(victims[i]) == Some(false) ==>
        if r.None? then !old(Deletable(victims[i], start, last)) else r.value.Forcibly?
      ensures old(Steady()) ==> Steady() && r != Some(Failed)
    {
      var cancelled := Fault();
      if cancelled {
        return Some(Failed);
      }
      Pass();
      var evicted := answers.evicts(victims[i]);
      if evicted != Some(false) {
        return Some(if evicted.None? then Failed else Nothing);
      }
      var allowed := ForceTerminationAllowed(cfg, victims[i], now, start, last, answers.others, answers.budgets);
      if !allowed {
        return None;
      }
      Delete(victims, i, start, last, answers.others.value, answers.budgets.value);
      var failed := Fault();
      return Some(if failed then Failed else Forcibly);
    }

    /** Disruption budgets are in the way of all evictions. */
    ghost predicate AllRefused(victims: seq<Pod>)
      reads this
    {
      forall i :: 0 <= i < |victims| ==> answers.evicts(victims[i]) == Some(false)
    }

    ghost predicate SomeDeletable(victims: seq<Pod>, start: int, last: int)
      reads this
    {
      exists i :: 0 <= i < |victims| && Deletable(victims[i], start, last)
    }

    /** One of the victims was deleted by this run. */
    ghost predicate ForcedOne(before: seq<Forced>, victims: seq<Pod>, since: int)
      reads this
    {
      && |forced| == |before| + 1 && before <= forced
      && var f := forced[|before|]; f.run == run && !f.stored && f.pod in victims && since <= f.decided && since <= f.at
    }

    /** The deletion takes effect some time after it was allowed. */
    method Delete(victims: seq<Pod>, i: nat, start: int, last: int, others: seq<Pod>, budgets: seq<Budget>)
      requires Valid() && Starts(start) && Covers(last) && i < |victims|
      requires Ripe(cfg, victims[i], now, start, last, others, budgets)
      modifies this`now, this`pods, this`answers, this`forced
      ensures Valid() && Starts(start) && now >= old(now) && ForcedOne(old(forced), victims, old(now))
      ensures calm ==> answers == old(answers)
    {
      ghost var decided := now;
      Pass();
      ghost var f := Forced(now, run, false, victims[i], decided, others, budgets);
      LimitedSnoc(forced, f, cfg, began, beganIn);
      forced := forced + [f];
      Pass();
    }

    /** What a run does about the start of the drain: it is stored when the run finds none,
        as a time of this run, and is left alone otherwise. */
    ghost predicate BeganOnce(seen: Stamp, since: int, thatBegan: int, thatIn: nat)
      reads this
    {
      if seen.At? then drainStart == seen && began == thatBegan && beganIn == thatIn
      else drainStart == seen || (drainStart == Format(began) && since <= began <= now && beganIn == run)
    }

    /** `drain`, with a context that is cancelled after a number of polls of either kind. It
        succeeds only when the node was just seen to have no pod that has to leave; and if
        nothing fails, it does not give up before the context is cancelled. When no eviction is
        possible, only the first poll tries to evict in parallel. */
    method Drain(polls: nat) returns (ok: bool)
      requires Valid()
      modifies this
      ensures Valid() && run == old(run) + 1 && now >= old(now)
      ensures BeganOnce(old(drainStart), old(now), old(began), old(beganIn))
      ensures AddedBy(run, old(now), old(forced), forced, ok)
      ensures ok ==> drainStart.At? && Empty()
      ensures old(Steady()) && !ok ==> listings >= old(listings) + polls
      ensures old(Stuck()) && polls > 0 && !ok ==> listings == old(listings) + 1 + polls
    {
      run := run + 1;
      var failed := Fault();
      Pass();
      if failed {
        return false;
      }
      var start, annotated := Begin();
      if !annotated {
        return false;
      }
      var done, empty := EvictAll(polls);
      if done {
        return empty;
      }
      ok := EvictOneByOne(start, polls);
    }

    /** Finds out when the drain began, and stores that if it begins now. */
    method Begin() returns (start: int, ok: bool)
      requires Valid() && (drainStart.At? ==> beganIn < run)
      modifies this`drainStart, this`began, this`beganIn
      ensures Valid() && (ok ==> Starts(start))
      ensures BeganOnce(old(drainStart), now, old(began), old(beganIn))
      ensures calm ==> ok
    {
      start := TimestampAnnotation(drainStart, now);
      StoredTime(began, now);
      if !drainStart.At? {
        began, beganIn := now, run;
      }
      if drainStart != Format(start) {
        var failed := Fault();
        if failed {
          return start, false;
        }
        drainStart := Format(start);
      }
      ok := true;
    }

    /** Evictions in parallel, as long as something can be evicted. */
    method EvictAll(polls: nat) returns (done: bool, empty: bool)
      requires Valid()
      modifies this`now, this`pods, this`answers, this`listings
      ensures Valid() && now >= old(now) && listings >= old(listings)
      ensures done && empty ==> Empty()
      ensures old(Steady()) ==> Steady() && (done && !empty ==> listings >= old(listings) + polls)
      ensures old(Stuck()) && polls > 0 ==> listings == old(listings) + 1 && (done ==> empty)
    {
      for poll := 0 to polls
        invariant Valid() && now >= old(now) && listings == old(listings) + poll
        invariant old(Steady()) ==> Steady()
        invariant old(Stuck()) ==> Stuck() && poll == 0
      {
        var failed := Fault();
        var victims := EvictablePods();
        if failed {
          return true, false;
        }
        if |victims| == 0 {
          return true, true;
        }
        var evicted := EvictParallel(victims);
        if evicted.None? {
          return true, false;
        }
        if !evicted.value {
          return false, false;
        }
        Pass();
      }
      return true, false;
    }

    /** `evictParallel`: whether any of the pods was evicted, unless an eviction fails. A
        disruption budget in the way is no failure. */
    method EvictParallel(victims: seq<Pod>) returns (r: Option<bool>)
      requires Valid()
      modifies this`now, this`pods, this`answers
      ensures Valid() && now >= old(now) && (calm ==> answers == old(answers))
      ensures calm ==> (r.None? <==> exists p :: p in victims && old(answers).evicts(p).None?)
      ensures calm && r.Some? ==> (r.value <==> exists p :: p in victims && old(answers).evicts(p) == Some(true))
    {
      var failed := Fault();
      var evicted := false;
      for i := 0 to |victims|
        invariant Valid() && now >= old(now) && (calm ==> answers == old(answers))
        invariant calm ==> (failed <==> exists j :: 0 <= j < i && old(answers).evicts(victims[j]).None?)
        invariant calm ==> (evicted <==> exists j :: 0 <= j < i && old(answers).evicts(victims[j]) == Some(true))
      {
        Pass();
        var reply := answers.evicts(victims[i]);
        failed := failed || reply.None?;
        evicted := evicted || reply == Some(true);
      }
      r := if failed then None else Some(evicted);
    }

    /** `evictablePods`: of the pods on the node, those that can be evicted. */
    method EvictablePods() returns (r: seq<Pod>)
      requires Valid()
      modifies this`listings
      ensures Valid() && listings == old(listings) + 1
      ensures forall p :: p in r <==> p in pods && Movable(p)
      ensures AllMovable(r) && (r == [] ==> Empty())
    {
      listings := listings + 1;
      r := [];
      for i := 0 to |pods|
        invariant forall p :: p in r <==> p in pods[..i] && Movable(p)
      {
        assert pods[..i + 1] == pods[..i] + [pods[i]];
        if Evictable(pods[i]) {
          r := r + [pods[i]];
        }
      }
      assert pods[..|pods|] == pods;
    }

    /** Evictions and forced deletions one by one. */
    method EvictOneByOne(start: int, polls: nat) returns (ok: bool)
      requires Valid() && Starts(start) && forall f :: f in forced ==> f.run < run
      modifies this`now, this`pods, this`answers, this`forced, this`lastForced, this`listings
      ensures Valid() && now >= old(now) && AddedBy(run, old(now), old(forced), forced, ok)
      ensures ok ==> Empty()
      ensures old(listings) <= listings <= old(listings) + polls
      ensures old(Steady()) && !ok ==> listings == old(listings) + polls
    {
      var seen := lastForced;
      var last := TimestampAnnotation(lastForced, 0);
      for poll := 0 to polls
        invariant Valid() && Starts(start) && Covers(last) && Known(seen) && now >= old(now)
        invariant AddedBy(run, old(now), old(forced), forced, true)
        invariant listings == old(listings) + poll && (old(Steady()) ==> Steady())
      {
        var round;
        round, last := OneRound(start, last, seen, old(forced), old(now));
        if !round.Again? {
          return round.Emptied?;
        }
      }
      return false;
    }

    /** One turn of the loop. */
    method OneRound(start: int, last: int, seen: Stamp, ghost before: seq<Forced>, ghost since: int)
      returns (r: Round, last': int)
      requires Valid() && Starts(start) && Covers(last) && Known(seen) && since <= now
      requires AddedBy(run, since, before, forced, true)
      modifies this`now, this`pods, this`answers, this`forced, this`lastForced, this`listings
      ensures Valid() && Starts(start) && Known(seen) && now >= old(now) && (r.Again? ==> Covers(last'))
      ensures listings == old(listings) + 1 && (old(Steady()) ==> Steady() && !r.Broken?)
      ensures AddedBy(run, since, before, forced, !r.Broken?)
      ensures r.Emptied? ==> Empty()
    {
      var failed := Fault();
      var victims := EvictablePods();
      if failed {
        return Broken, last;
      }
      if |victims| == 0 {
        return Emptied, last;
      }
      r, last' := Turn(victims, start, last, seen, before, since);
    }

    /** An eviction or forced deletion, and the wait for the next poll. */
    method Turn(victims: seq<Pod>, start: int, last: int, seen: Stamp, ghost before: seq<Forced>, ghost since: int)
      returns (r: Round, last': int)
      requires Valid() && Starts(start) && Covers(last) && Known(seen) && since <= now
      requires AddedBy(run, since, before, forced, true) && AllMovable(victims)
      modifies this`now, this`pods, this`answers, this`forced, this`lastForced
      ensures Valid() && Starts(start) && Known(seen) && now >= old(now) && (r.Again? ==> Covers(last'))
      ensures AddedBy(run, since, before, forced, !r.Broken?)
      ensures !r.Emptied? && (old(Steady()) ==> Steady() && r.Again?)
    {
      var alive;
      alive, last' := EvictOne(victims, start, last, seen, before, since);
      if !alive {
        return Broken, last';
      }
      Pass();
      r := Again;
    }

    /** One eviction or forced deletion; the time of the latter is stored. */
    method EvictOne(victims: seq<Pod>, start: int, last: int, seen: Stamp, ghost before: seq<Forced>, ghost since: int)
      returns (ok: bool, last': int)
      requires Valid() && Starts(start) && Covers(last) && Known(seen) && since <= now
      requires AddedBy(run, since, before, forced, true) && AllMovable(victims)
      modifies this`now, this`pods, this`answers, this`forced, this`lastForced
      ensures Valid() && Starts(start) && Known(seen) && now >= old(now) && (ok ==> Covers(last'))
      ensures old(Steady()) ==> Steady() && ok
      ensures AddedBy(run, since, before, forced, ok)
    {
      last' := last;
      var reply := EvictOrForceTerminatePod(victims, start, last);
      if |forced| > |old(forced)| {
        AddedMore(run, since, before, old(forced), forced);
      }
      if reply.Failed? {
        return false, last;
      }
      if reply.Forcibly? {
        ok, last' := Remember(start, seen, before, since);
      } else {
        ok := true;
      }
    }

    /** The time of the forced deletion that was just made. */
    method Remember(start: int, seen: Stamp, ghost before: seq<Forced>, ghost since: int) returns (ok: bool, last: int)
      requires Valid() && Starts(start) && Known(seen) && forced != []
      requires AddedBy(run, since, before, forced, false) && AddedBy(run, since, before, WithStored(forced), true)
      modifies this`now, this`pods, this`answers, this`forced, this`lastForced
      ensures Valid() && Starts(start) && Known(seen) && now >= old(now) && (ok ==> Covers(last))
      ensures AddedBy(run, since, before, forced, ok) && (calm ==> ok && answers == old(answers))
    {
      Pass();
      last := now;
      assert forced[|forced| - 1] in forced;
      ok := StoreForced(seen, last);
    }

    /** What the annotation was when the run began is not later than what it is. */
    ghost predicate Known(seen: Stamp)
      reads this`lastForced
    {
      seen.At? ==> lastForced.At? && seen.time <= lastForced.time
    }

    /** Stores the time of the last forced deletion, unless it is the same as at the
        beginning of the run. */
    method StoreForced(seen: Stamp, last: int) returns (ok: bool)
      requires Valid() && Known(seen) && forced != [] && last == now && forced[|forced| - 1].at <= last
      modifies this`forced, this`lastForced
      ensures Valid() && Known(seen)
      ensures ok ==> forced == WithStored(old(forced)) && lastForced == Format(last)
      ensures !ok ==> forced == old(forced)
      ensures calm ==> ok
    {
      if seen != Format(last) {
        var failed := Fault();
        if failed {
          return false;
        }
        lastForced := Format(last);
      } else {
        StoredBetween(lastForced, last);
      }
      StoredTime(last, 0);
      StoredKeeps(forced, cfg, began, beganIn, run, now);
      forced := WithStored(forced);
      ok := true;
    }
  }
}
