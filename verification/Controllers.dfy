/** What a worker does with the cluster it was handed: the versions and the lifecycle
    status it moves forward, the problems it records, and what the next refresh of the
    work queue then makes of the cluster. */
module Controllers {
  import opened Options
  import opened Strings
  import opened ClusterVersions
  import opened WorkQueues

  const GENERAL_ERROR := "https://cluster-lifecycle-manager.zalando.org/problems/general-error"
  const TOO_MANY_PROBLEMS := "https://cluster-lifecycle-manager.zalando.org/problems/too-many-problems"
  const ERROR_LIMIT := 25
  const MULTIPLE := Problem("<multiple problems>", TOO_MANY_PROBLEMS)

  datatype Failure = NotSupported | Failure(message: string)

  /** What everything outside of the controller answers during one attempt. */
  datatype Answers = Answers(
    nextError: string, config: Option<Failure>, knownProvider: bool, firstWrite: Option<Failure>,
    provision: Option<Failure>, decommission: Option<Failure>, delete: Option<Failure>, lastWrite: Option<Failure>)

  /******* The problem log *******/

  datatype Event = Clear | Fail(problem: Problem)

  /** The problems of a history since it was last cleared. */
  function SinceClear(history: seq<Event>): seq<Problem> {
    if history == [] then [] else
      match history[|history| - 1]
      case Clear => []
      case Fail(p) => SinceClear(history[..|history| - 1]) + [p]
  }

  /** Without immediate repetitions. */
  function Compact(ps: seq<Problem>): (r: seq<Problem>) {
    if ps == [] then [] else
      var rest := Compact(ps[..|ps| - 1]);
      if rest != [] && rest[|rest| - 1] == ps[|ps| - 1] then rest else rest + [ps[|ps| - 1]]
  }

  /** What is kept of a list of problems. */
  function Window(ps: seq<Problem>): seq<Problem> {
    if |ps| <= ERROR_LIMIT then ps else [MULTIPLE] + ps[|ps| - (ERROR_LIMIT - 1)..]
  }

  function Log(history: seq<Event>): seq<Problem> {
    Window(Compact(SinceClear(history)))
  }

  ghost predicate General(ps: seq<Problem>) {
    forall i :: 0 <= i < |ps| ==> ps[i].kind == GENERAL_ERROR
  }

  ghost predicate NoRepeats(ps: seq<Problem>) {
    forall i :: 0 < i < |ps| ==> ps[i - 1] != ps[i]
  }

  /** One more problem in a log, as the controller records it. */
  method Record(ps: seq<Problem>, message: string) returns (r: seq<Problem>)
    ensures r == Recorded(ps, Problem(message, GENERAL_ERROR))
  {
    r := ps + [Problem(message, GENERAL_ERROR)];
    r := Compact(r);
    if |r| > ERROR_LIMIT {
      r := r[|r| - ERROR_LIMIT..];
      r := r[0 := MULTIPLE];
    }
  }

  function Recorded(ps: seq<Problem>, p: Problem): seq<Problem> {
    Trimmed(Compact(ps + [p]))
  }

  function Trimmed(ps: seq<Problem>): seq<Problem> {
    if |ps| > ERROR_LIMIT then ps[|ps| - ERROR_LIMIT..][0 := MULTIPLE] else ps
  }

  lemma {:induction false} CompactFacts(ps: seq<Problem>)
    requires General(ps)
    ensures General(Compact(ps)) && NoRepeats(Compact(ps))
  {
    if ps != [] {
      CompactFacts(ps[..|ps| - 1]);
    }
  }

  /** Nothing to compact in a list without repetitions. */
  lemma {:induction false} CompactNothing(ps: seq<Problem>)
    requires NoRepeats(ps)
    ensures Compact(ps) == ps
  {
    if ps != [] {
      var rest := ps[..|ps| - 1];
      CompactNothing(rest);
      assert ps == rest + [ps[|ps| - 1]];
      assert rest != [] ==> rest[|rest| - 1] == ps[|ps| - 2];
    }
  }

  /** An immediate repetition makes no difference. */
  lemma {:induction false} CompactRepetition(a: seq<Problem>, p: Problem, b: seq<Problem>)
    ensures Compact(a + [p, p] + b) == Compact(a + [p] + b)
  {
    if b == [] {
      CompactTwice(a, p);
      assert a + [p, p] + b == a + [p, p] && a + [p] + b == a + [p];
    } else {
      CompactRepetition(a, p, b[..|b| - 1]);
      CompactMore(a + [p, p], a + [p], b);
    }
  }

  lemma CompactTwice(a: seq<Problem>, p: Problem)
    ensures Compact(a + [p, p]) == Compact(a + [p])
  {
    assert a + [p, p] == (a + [p]) + [p];
    CompactSnoc(a + [p], p);
    CompactSnoc(a, p);
  }

  lemma CompactMore(x: seq<Problem>, y: seq<Problem>, b: seq<Problem>)
    requires b != [] && Compact(x + b[..|b| - 1]) == Compact(y + b[..|b| - 1])
    ensures Compact(x + b) == Compact(y + b)
  {
    LastApart(x, b);
    LastApart(y, b);
    CompactSame(x + b[..|b| - 1], y + b[..|b| - 1], b[|b| - 1]);
  }

  lemma LastApart(x: seq<Problem>, b: seq<Problem>)
    requires b != []
    ensures (x + b[..|b| - 1]) + [b[|b| - 1]] == x + b
  {
    assert b == b[..|b| - 1] + [b[|b| - 1]];
  }

  lemma CompactSame(x: seq<Problem>, y: seq<Problem>, q: Problem)
    requires Compact(x) == Compact(y)
    ensures Compact(x + [q]) == Compact(y + [q])
  {
    CompactSnoc(x, q);
    CompactSnoc(y, q);
  }

  lemma WindowNoRepeats(ps: seq<Problem>)
    requires General(ps) && NoRepeats(ps)
    ensures NoRepeats(Window(ps))
  {
    var w := Window(ps);
    if |ps| > ERROR_LIMIT {
      var k := |ps| - (ERROR_LIMIT - 1);
      forall i | 0 < i < |w| ensures w[i - 1] != w[i] {
        assert w[i] == ps[k + i - 1];
        assert i > 1 ==> w[i - 1] == ps[k + i - 2];
      }
    }
  }

  lemma CompactSnoc(ps: seq<Problem>, p: Problem)
    ensures var d := Compact(ps); Compact(ps + [p]) == if d != [] && d[|d| - 1] == p then d else d + [p]
  {
    assert (ps + [p])[..|ps|] == ps;
  }

  lemma WindowSnoc(d: seq<Problem>, p: Problem)
    ensures Trimmed(Window(d) + [p]) == Window(d + [p])
  {
    if |d| >= ERROR_LIMIT {
      FullSnoc(d, p);
    }
  }

  lemma FullSnoc(d: seq<Problem>, p: Problem)
    requires |d| >= ERROR_LIMIT
    ensures Trimmed(Window(d) + [p]) == Window(d + [p])
  {
    var k := |d| - (ERROR_LIMIT - 1);
    var first := if k > 1 then [MULTIPLE] else [d[0]];
    WindowParts(d, k);
    TrimmedTail(first, d[k..], p);
    SuffixSnoc(d, p, k);
  }

  lemma WindowParts(d: seq<Problem>, k: nat)
    requires |d| >= ERROR_LIMIT && k == |d| - (ERROR_LIMIT - 1)
    ensures Window(d) == (if k > 1 then [MULTIPLE] else [d[0]]) + d[k..]
  {
  }

  lemma SuffixSnoc(d: seq<Problem>, p: Problem, k: nat)
    requires k < |d|
    ensures (d + [p])[k + 1..] == d[k..][1..] + [p]
  {
  }

  /** A full log with one more problem: the first makes room, the second becomes the marker. */
  lemma TrimmedTail(first: seq<Problem>, rest: seq<Problem>, p: Problem)
    requires |first| == 1 && |rest| == ERROR_LIMIT - 1
    ensures Trimmed(first + rest + [p]) == [MULTIPLE] + (rest[1..] + [p])
  {
    var t := first + rest + [p];
    assert t[1..] == rest + [p];
    assert (rest + [p])[0 := MULTIPLE] == [MULTIPLE] + (rest[1..] + [p]);
  }

  /** Recording a problem in the bounded log is the same as recording it in the full
      history and keeping a window of that. */
  lemma RecordWindow(ps: seq<Problem>, p: Problem)
    requires General(ps) && p.kind == GENERAL_ERROR
    ensures Recorded(Window(Compact(ps)), p) == Window(Compact(ps + [p]))
  {
    var d := Compact(ps);
    CompactFacts(ps);
    WindowNoRepeats(d);
    CompactNothing(Window(d));
    RecordDistinct(d, p);
    CompactSnoc(ps, p);
  }

  lemma RecordDistinct(d: seq<Problem>, p: Problem)
    requires Compact(Window(d)) == Window(d)
    ensures Recorded(Window(d), p) == Window(if d != [] && d[|d| - 1] == p then d else d + [p])
  {
    CompactSnoc(Window(d), p);
    WindowLast(d);
    if !(d != [] && d[|d| - 1] == p) {
      WindowSnoc(d, p);
    }
  }

  lemma WindowLast(d: seq<Problem>)
    ensures d != [] ==> Window(d) != [] && Window(d)[|Window(d)| - 1] == d[|d| - 1]
    ensures Trimmed(Window(d)) == Window(d)
  {
  }

  lemma {:induction false} SinceClearGeneral(history: seq<Event>)
    requires Recordable(history)
    ensures General(SinceClear(history))
  {
    if history != [] {
      SinceClearGeneral(history[..|history| - 1]);
    }
  }

  /** The bounded log after one more event. */
  lemma LogStep(history: seq<Event>, e: Event)
    requires Recordable(history + [e])
    ensures Log(history + [e]) == match e case Clear => [] case Fail(p) => Recorded(Log(history), p)
  {
    assert (history + [e])[..|history|] == history;
    assert e in history + [e];
    assert forall x :: x in history ==> x in history + [e];
    SinceClearGeneral(history);
    if e.Fail? {
      RecordWindow(SinceClear(history), e.problem);
    }
  }

  /******* One attempt *******/

  predicate Installable(c: Cluster) {
    c.lifecycle == STATUS_REQUESTED || c.lifecycle == STATUS_READY
  }

  /** The cluster after a successful update to a version. */
  function Installed(c: Cluster, v: ClusterVersion): Cluster {
    c.(lifecycle := STATUS_READY, status := Status(ToString(v), c.status.currentVersion, "", []))
  }

  function Attempting(c: Cluster, v: ClusterVersion): Cluster {
    c.(status := c.status.(nextVersion := ToString(v)))
  }

  function Gone(c: Cluster): Cluster {
    c.(lifecycle := STATUS_DECOMMISSIONED, status := Status("", c.status.currentVersion, "", []))
  }

  /** `Unwritten` is an update that could not be announced in the registry. */
  datatype Progress = Nothing | Unwritten | Announced | Finished

  /** How far an attempt gets. */
  function Reached(c: Cluster, next: Option<ClusterVersion>, env: Answers, dryRun: bool): Progress {
    if next.None? || env.config.Some? || !env.knownProvider then Nothing
    else if Installable(c) then
      if !dryRun && env.firstWrite.Some? then Unwritten else if env.provision.Some? then Announced else Finished
    else if c.lifecycle == STATUS_DECOMMISSION_REQUESTED && env.decommission.None? then Finished
    else Nothing
  }

  /** The worker's cluster and the registry's record after an attempt that started
      with both equal to c. */
  ghost predicate Outcome(c: Cluster, next: Option<ClusterVersion>, env: Answers, dryRun: bool,
                          cluster: Cluster, stored: Cluster) {
    match Reached(c, next, env, dryRun)
    case Nothing => stored == c && cluster == c
    case Unwritten => next.Some? && stored == c && cluster == Attempting(c, next.value)
    case Announced => next.Some? && cluster == Attempting(c, next.value) && stored == if dryRun then c else cluster
    case Finished =>
      && next.Some?
      && cluster == (if Installable(c) then Installed(c, next.value) else Gone(c))
      && stored == if dryRun || !Installable(c) then c else Attempting(c, next.value)
  }

  /** The error that an attempt ends with: what stopped it first, unless the configuration
      could not be deleted afterwards. */
  function ErrorOf(c: Cluster, next: Option<ClusterVersion>, env: Answers, dryRun: bool): Option<Failure> {
    if next.None? then Some(Failure(env.nextError))
    else if env.config.Some? then env.config
    else if env.delete.Some? then env.delete
    else StoppedBy(c, next, env, dryRun)
  }

  function StoppedBy(c: Cluster, next: Option<ClusterVersion>, env: Answers, dryRun: bool): Option<Failure> {
    match Reached(c, next, env, dryRun)
    case Finished => None
    case Announced => env.provision
    case Unwritten => env.firstWrite
    case Nothing =>
      if !env.knownProvider then Some(Failure(UnknownProvider(c)))
      else if c.lifecycle == STATUS_DECOMMISSION_REQUESTED then env.decommission
      else Some(Failure(InvalidStatus(c)))
  }

  function UnknownProvider(c: Cluster): string {
    "cluster " + c.id + ": unknown provider \"" + c.provider + "\""
  }

  function InvalidStatus(c: Cluster): string {
    "invalid cluster status: " + c.lifecycle
  }

  /** What an attempt adds to the history of a cluster. */
  function Events(finished: bool, err: Option<Failure>): seq<Event> {
    match err
    case None | Some(NotSupported) => [Clear]
    case Some(Failure(message)) => (if finished then [Clear] else []) + [Fail(Problem(message, GENERAL_ERROR))]
  }

  function WithoutProblems(c: Cluster): Cluster {
    c.(status := c.status.(problems := []))
  }

  /** A worker with the cluster it was handed, and the registry's record of it. */
  class Job {
    const dryRun: bool
    var cluster: Cluster
    var next: Option<ClusterVersion>
    var stored: Cluster
    ghost var history: seq<Event>

    /** The registry's problems are the bounded log of the persisted attempts. */
    ghost predicate Valid()
      reads this
    {
      && stored.status.problems == Log(history)
      && Recordable(history)
    }

    constructor (record: Cluster, dryRun: bool)
      requires record.status.problems == []
      ensures Valid() && stored == record && history == [] && this.dryRun == dryRun
    {
      this.dryRun := dryRun;
      cluster, stored, next, history := record, record, None, [];
    }

    /** A refresh that lists the registry's record. */
    method Refresh(src: Source)
      requires Valid()
      modifies this`cluster, this`next
      ensures Valid() && cluster == stored && next == NextVersion(stored, src)
    {
      cluster := stored;
      match src.resolve(stored)
      case None => next := None;
      case Some(config) =>
        var v := Version(stored, config, src.sha);
        next := Some(v);
    }

    method Write()
      modifies this`stored
      ensures stored == old(stored).(lifecycle := cluster.lifecycle, status := cluster.status)
    {
      stored := stored.(lifecycle := cluster.lifecycle, status := cluster.status);
    }

    /** `doProcessCluster`. */
    method DoProcessCluster(env: Answers) returns (err: Option<Failure>)
      requires cluster == stored
      modifies this`cluster, this`stored
      ensures Outcome(old(cluster), next, env, dryRun, cluster, stored)
      ensures err == ErrorOf(old(cluster), next, env, dryRun)
      ensures err.None? <==> Reached(old(cluster), next, env, dryRun).Finished? && env.delete.None?
    {
      if next.None? {
        return Some(Failure(env.nextError));
      }
      if env.config.Some? {
        return env.config;
      }
      err := Provide(next.value, env);
      if env.delete.Some? {
        err := env.delete;
      }
    }

    /** The part of `doProcessCluster` in which the configuration is available. */
    method Provide(v: ClusterVersion, env: Answers) returns (err: Option<Failure>)
      requires cluster == stored && env.config.None?
      modifies this`cluster, this`stored
      ensures Outcome(old(cluster), Some(v), env, dryRun, cluster, stored)
      ensures err == StoppedBy(old(cluster), Some(v), env, dryRun)
    {
      if !env.knownProvider {
        return Some(Failure(UnknownProvider(cluster)));
      }
      if cluster.lifecycle == STATUS_REQUESTED || cluster.lifecycle == STATUS_READY {
        cluster := cluster.(status := cluster.status.(nextVersion := ToString(v)));
        if !dryRun {
          if env.firstWrite.Some? {
            return env.firstWrite;
          }
          Write();
        }
        if env.provision.Some? {
          return env.provision;
        }
        var s := cluster.status;
        cluster := cluster.(lifecycle := STATUS_READY, status := Status(s.nextVersion, s.currentVersion, "", []));
      } else if cluster.lifecycle == STATUS_DECOMMISSION_REQUESTED {
        if env.decommission.Some? {
          return env.decommission;
        }
        var s := cluster.status;
        cluster := cluster.(lifecycle := STATUS_DECOMMISSIONED, status := Status("", s.currentVersion, "", []));
      } else {
        return Some(Failure(InvalidStatus(cluster)));
      }
      err := None;
    }

    /** `processCluster`. */
    method ProcessCluster(env: Answers) returns (err: Option<Failure>)
      requires Valid() && cluster == stored
      modifies this
      ensures Valid() && next == old(next) && err == ErrorOf(old(cluster), next, env, dryRun)
      ensures var reached := Reached(old(cluster), next, env, dryRun);
        && (dryRun ==> stored == old(stored) && history == old(history))
        && (!dryRun ==> history == old(history) + if env.lastWrite.None? then Events(reached.Finished?, err) else [])
        && (!dryRun ==> Stored(old(stored), next, reached, env.lastWrite.None?, stored))
    {
      err := DoProcessCluster(env);
      if dryRun {
        return;
      }
      ghost var reached := Reached(old(cluster), next, env, dryRun);
      var failure := if err.None? || err.value.NotSupported? then None else err;
      var problems := [];
      if failure.Some? {
        problems := Record(cluster.status.problems, failure.value.message);
      }
      OutcomeStored(old(cluster), next, env, cluster, stored, problems);
      cluster := cluster.(status := cluster.status.(problems := problems));
      if env.lastWrite.None? {
        Remembered(old(history), reached.Finished?, err);
        Write();
        history := history + Events(reached.Finished?, err);
      }
    }
  }

  /** An attempt that has told the registry about the version it is updating to, and not
      that it got there. */
  predicate LeftUnfinished(c: Cluster, reached: Progress, persisted: bool) {
    || reached.Announced?
    || (reached.Unwritten? && persisted)
    || (reached.Finished? && Installable(c) && !persisted)
  }

  /** A refresh and an attempt, and what the refresh after that will find. */
  method RefreshAndProcess(job: Job, src: Source, env: Answers) returns (err: Option<Failure>)
    requires job.Valid() && !job.dryRun && Steady(src)
    modifies job
    ensures job.Valid() && err == ErrorOf(old(job.stored), NextVersion(old(job.stored), src), env, false)
    ensures Lands(old(job.stored), NextVersion(old(job.stored), src), env, job.stored)
    ensures Fails(old(job.stored), NextVersion(old(job.stored), src), env, err)
    ensures Reports(env, err, job.stored)
    ensures var c := old(job.stored); var next := NextVersion(c, src); var reached := Reached(c, next, env, false);
      && (reached.Finished? && env.lastWrite.None? && c.lifecycle == STATUS_READY && PrintsWell(next) ==>
            PriorityOf(job.stored, src) == NONE)
      && (LeftUnfinished(c, reached, env.lastWrite.None?) && PrintsWell(next)
          && Outdated(c, next) && !UpdateBlocked(c) ==>
            PriorityOf(job.stored, src) == ALREADY_UPDATING)
  {
    ghost var c := job.stored;
    job.Refresh(src);
    err := job.ProcessCluster(env);
    AttemptLands(c, NextVersion(c, src), env, job.stored);
    AttemptFails(c, NextVersion(c, src), env);
    ghost var finished := Reached(c, NextVersion(c, src), env, false).Finished?;
    AttemptReports(old(job.history), finished, env, err, job.history, job.stored);
    if PrintsWell(NextVersion(c, src)) {
      AfterAttempt(c, src, env, job.stored);
    }
  }

  /******* Where an attempt ends *******/

  /** The attempt gets as far as to the provisioner, if the lifecycle status is one that asks
      for something. */
  ghost predicate Prepared(next: Option<ClusterVersion>, env: Answers) {
    next.Some? && env.config.None? && env.knownProvider
  }

  /** An update or a decommission that does its work. */
  ghost predicate Works(c: Cluster, next: Option<ClusterVersion>, env: Answers) {
    && Prepared(next, env)
    && if c.lifecycle in {"requested", "ready"} then env.firstWrite.None? && env.provision.None?
       else c.lifecycle == "decommission-requested" && env.decommission.None?
  }

  ghost predicate SameVersions(c: Cluster, d: Cluster) {
    && d.lifecycle == c.lifecycle
    && d.status.currentVersion == c.status.currentVersion && d.status.lastVersion == c.status.lastVersion
  }

  /** The registry's record, field by field. */
  ghost predicate Lands(c: Cluster, next: Option<ClusterVersion>, env: Answers, stored: Cluster) {
    && stored == c.(lifecycle := stored.lifecycle, status := stored.status)
    && (Works(c, next, env) && env.lastWrite.None? ==>
          && stored.status.lastVersion == c.status.currentVersion && stored.status.nextVersion == ""
          && if c.lifecycle == "decommission-requested"
             then stored.lifecycle == "decommissioned" && stored.status.currentVersion == ""
             else stored.lifecycle == "ready" && stored.status.currentVersion == ToString(next.value))
    && (!Works(c, next, env) || env.lastWrite.Some? ==> SameVersions(c, stored))
    && (!Works(c, next, env) && (!Prepared(next, env) || c.lifecycle !in {"requested", "ready"}) ==>
          stored.status.nextVersion == c.status.nextVersion)
    && (Prepared(next, env) && c.lifecycle in {"requested", "ready"} && env.firstWrite.None?
        && (env.provision.Some? || env.lastWrite.Some?) ==>
          stored.status.nextVersion == ToString(next.value))
  }

  /** The error, case by case. */
  ghost predicate Fails(c: Cluster, next: Option<ClusterVersion>, env: Answers, err: Option<Failure>) {
    && (next.None? ==> err == Some(Failure(env.nextError)))
    && (next.Some? && env.config.Some? ==> err == env.config)
    && (next.Some? && env.config.None? && env.delete.Some? ==> err == env.delete)
    && (Prepared(next, env) && env.delete.None? && c.lifecycle in {"requested", "ready"} ==>
          err == if env.firstWrite.Some? then env.firstWrite else env.provision)
    && (Prepared(next, env) && env.delete.None? && c.lifecycle == "decommission-requested" ==> err == env.decommission)
    && (err.None? <==> Works(c, next, env) && env.delete.None?)
  }

  /** The problems: none after a success, else the error last. */
  ghost predicate Reports(env: Answers, err: Option<Failure>, stored: Cluster) {
    var problems := stored.status.problems;
    env.lastWrite.None? ==>
      match err
      case None | Some(NotSupported) => problems == []
      case Some(Failure(m)) => 0 < |problems| <= 25 && problems[|problems| - 1] == Problem(m, GENERAL_ERROR)
  }

  lemma AttemptLands(c: Cluster, next: Option<ClusterVersion>, env: Answers, stored: Cluster)
    requires Stored(c, next, Reached(c, next, env, false), env.lastWrite.None?, stored)
    ensures Lands(c, next, env, stored)
  {
    var record := WithoutProblems(stored);
    assert record.status == stored.status.(problems := []);
    assert stored == record.(status := stored.status);
  }

  lemma AttemptFails(c: Cluster, next: Option<ClusterVersion>, env: Answers)
    ensures Fails(c, next, env, ErrorOf(c, next, env, false))
  {
  }

  lemma AttemptReports(before: seq<Event>, finished: bool, env: Answers, err: Option<Failure>, after: seq<Event>,
                       stored: Cluster)
    requires Recordable(before) && stored.status.problems == Log(after)
    requires after == before + if env.lastWrite.None? then Events(finished, err) else []
    ensures Reports(env, err, stored)
  {
    if env.lastWrite.None? {
      Remembered(before, finished, err);
      if err.Some? && err.value.Failure? {
        RecordedLast(if finished then [] else Log(before), Problem(err.value.message, GENERAL_ERROR));
      }
    }
  }

  lemma RecordedLast(ps: seq<Problem>, p: Problem)
    ensures var r := Recorded(ps, p); 0 < |r| <= 25 && r[|r| - 1] == p
  {
    CompactSnoc(ps, p);
  }

  ghost predicate PrintsWell(v: Option<ClusterVersion>) {
    v.Some? ==> '#' !in v.value.config && '#' !in v.value.hash
  }

  predicate Outdated(c: Cluster, next: Option<ClusterVersion>) {
    next.Some? && next.value != ParseVersion(c.status.currentVersion)
  }

  lemma AfterAttempt(c: Cluster, src: Source, env: Answers, stored: Cluster)
    requires Steady(src) && PrintsWell(NextVersion(c, src))
    requires Stored(c, NextVersion(c, src), Reached(c, NextVersion(c, src), env, false), env.lastWrite.None?, stored)
    ensures var reached := Reached(c, NextVersion(c, src), env, false); var next := NextVersion(c, src);
      && (reached.Finished? && env.lastWrite.None? && c.lifecycle == STATUS_READY ==> PriorityOf(stored, src) == NONE)
      && (LeftUnfinished(c, reached, env.lastWrite.None?) && Outdated(c, next) && !UpdateBlocked(c) ==>
            PriorityOf(stored, src) == ALREADY_UPDATING)
  {
    var next := NextVersion(c, src);
    var reached := Reached(c, next, env, false);
    if LeftUnfinished(c, reached, env.lastWrite.None?) && Outdated(c, next) {
      assert Installable(c);
      assert WithoutProblems(stored) == WithoutProblems(Attempting(c, next.value));
      assert stored.status.(problems := []) == WithoutProblems(stored).status;
      UnfinishedResumes(c, next.value, stored, src);
      assert stored == c.(lifecycle := stored.lifecycle, status := stored.status) && stored.lifecycle == c.lifecycle;
      NextOfStored(c, stored, src, src.resolve(c).value);
    } else if reached.Finished? && env.lastWrite.None? && c.lifecycle == STATUS_READY {
      UpdatedIsDone(c, stored, src, src.resolve(c).value);
    }
  }

  /** The registry's record after an attempt, up to its problems. */
  ghost predicate Stored(c: Cluster, next: Option<ClusterVersion>, reached: Progress, persisted: bool,
                         stored: Cluster) {
    var record := WithoutProblems(stored);
    match reached
    case Nothing => record == WithoutProblems(c)
    case Unwritten => next.Some? && record == WithoutProblems(if persisted then Attempting(c, next.value) else c)
    case Announced => next.Some? && record == WithoutProblems(Attempting(c, next.value))
    case Finished =>
      && next.Some?
      && record ==
         if !Installable(c) then if persisted then Gone(c) else WithoutProblems(c)
         else if persisted then Installed(c, next.value)
         else WithoutProblems(Attempting(c, next.value))
  }

  /** What the registry has after an attempt, with or without the last write. */
  lemma OutcomeStored(c: Cluster, next: Option<ClusterVersion>, env: Answers, cluster: Cluster,
                      stored: Cluster, problems: seq<Problem>)
    requires Outcome(c, next, env, false, cluster, stored)
    ensures var reached := Reached(c, next, env, false);
      var written := cluster.(status := cluster.status.(problems := problems));
      && Stored(c, next, reached, false, stored)
      && Stored(c, next, reached, true, stored.(lifecycle := written.lifecycle, status := written.status))
      && stored.status.problems == c.status.problems
      && cluster.status.problems == if reached.Finished? then [] else c.status.problems
  {
  }

  /** Only general errors are recorded. */
  ghost predicate Recordable(history: seq<Event>) {
    forall e :: e in history && e.Fail? ==> e.problem.kind == GENERAL_ERROR
  }

  /** The log after an attempt. */
  function LogAfter(log: seq<Problem>, finished: bool, err: Option<Failure>): seq<Problem> {
    match err
    case None | Some(NotSupported) => []
    case Some(Failure(message)) => Recorded(if finished then [] else log, Problem(message, GENERAL_ERROR))
  }

  lemma RecordableSnoc(history: seq<Event>, e: Event)
    requires Recordable(history) && (e.Fail? ==> e.problem.kind == GENERAL_ERROR)
    ensures Recordable(history + [e])
  {
  }

  lemma Remembered(history: seq<Event>, finished: bool, err: Option<Failure>)
    requires Recordable(history)
    ensures Recordable(history + Events(finished, err))
    ensures Log(history + Events(finished, err)) == LogAfter(Log(history), finished, err)
  {
    if err.Some? && err.value.Failure? {
      var problem := Problem(err.value.message, GENERAL_ERROR);
      if finished {
        assert history + Events(true, err) == (history + [Clear]) + [Fail(problem)];
        RememberedAfter(history, problem);
      } else {
        assert history + Events(false, err) == history + [Fail(problem)];
        RecordableSnoc(history, Fail(problem));
        LogStep(history, Fail(problem));
      }
    } else {
      RecordableSnoc(history, Clear);
      LogStep(history, Clear);
    }
  }

  lemma RememberedAfter(history: seq<Event>, problem: Problem)
    requires Recordable(history) && problem.kind == GENERAL_ERROR
    ensures Recordable((history + [Clear]) + [Fail(problem)])
    ensures Log((history + [Clear]) + [Fail(problem)]) == Recorded([], problem)
  {
    var cleared := history + [Clear];
    RecordableSnoc(history, Clear);
    LogStep(history, Clear);
    RecordableSnoc(cleared, Fail(problem));
    LogStep(cleared, Fail(problem));
  }

  /******* What the next refresh makes of it *******/

  /** Which configuration a cluster gets does not depend on what an update changes. */
  ghost predicate Steady(src: Source) {
    forall c: Cluster, lifecycle, status :: src.resolve(c.(lifecycle := lifecycle, status := status)) == src.resolve(c)
  }

  lemma NextOfStored(c: Cluster, stored: Cluster, src: Source, config: string)
    requires Steady(src) && src.resolve(c) == Some(config)
    requires stored == c.(lifecycle := stored.lifecycle, status := stored.status)
    ensures NextVersion(stored, src) == Some(VersionOf(c.(lifecycle := stored.lifecycle), config, src.sha))
  {
    StatusNotHashed(c.(lifecycle := stored.lifecycle), stored.status, config, src.sha);
    assert c.(lifecycle := stored.lifecycle).(status := stored.status) == stored;
  }

  /** Version fixpoint: a ready cluster that was updated has nothing left to do exactly
      if it is blocked or neither part of its version contains the separator. */
  lemma UpdatedIsDone(c: Cluster, stored: Cluster, src: Source, config: string)
    requires c.lifecycle == STATUS_READY && Steady(src) && src.resolve(c) == Some(config)
    requires WithoutProblems(stored) == Installed(c, VersionOf(c, config, src.sha))
    ensures PriorityOf(stored, src) == NONE <==>
      UpdateBlocked(c) || ('#' !in config && '#' !in src.sha(HashInput(c)))
  {
    var v := VersionOf(c, config, src.sha);
    ParseToString(v);
    assert stored == c.(status := Installed(c, v).status.(problems := stored.status.problems))
      && stored.lifecycle == c.lifecycle;
    NextOfStored(c, stored, src, config);
    assert c.(lifecycle := stored.lifecycle) == c;
  }

  /** A requested cluster changes its lifecycle status in the update, and that is part
      of the hash: it is updated once more unless the hashes collide. */
  lemma RequestedUpdatesAgain(c: Cluster, stored: Cluster, src: Source, config: string)
    requires c.lifecycle == STATUS_REQUESTED && !UpdateBlocked(c) && Steady(src) && src.resolve(c) == Some(config)
    requires '#' !in config && '#' !in src.sha(HashInput(c))
    requires WithoutProblems(stored) == Installed(c, VersionOf(c, config, src.sha))
    ensures PriorityOf(stored, src) == NONE <==>
      src.sha(HashInput(c.(lifecycle := STATUS_READY))) == src.sha(HashInput(c))
  {
    var v := VersionOf(c, config, src.sha);
    ParseToString(v);
    var status := Installed(c, v).status.(problems := stored.status.problems);
    assert stored == c.(lifecycle := STATUS_READY, status := status);
    NextOfStored(c, stored, src, config);
  }

  /** Resume: an update that was announced and not finished goes on with the highest
      priority, unless the cluster has become blocked, misconfigured or is to be
      decommissioned. */
  lemma UnfinishedResumes(c: Cluster, v: ClusterVersion, stored: Cluster, src: Source)
    requires '#' !in v.config && '#' !in v.hash && v != ParseVersion(c.status.currentVersion)
    requires stored.status.(problems := []) == Attempting(c, v).status.(problems := [])
    ensures PriorityOf(stored, src) ==
      if UpdateBlocked(stored) then NONE
      else if NextVersion(stored, src).None? then NORMAL
      else if stored.lifecycle == STATUS_DECOMMISSION_REQUESTED then DECOMMISSION_REQUESTED
      else ALREADY_UPDATING
  {
    ParseToString(v);
    assert stored.status == Status(c.status.currentVersion, c.status.lastVersion, ToString(v), stored.status.problems);
    assert '#' in ToString(v);
  }
}
