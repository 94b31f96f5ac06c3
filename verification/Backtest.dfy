/** The one-shot Backtest: its Job is the commit record of everything applied for it, and its status is the record of
    how the Job ended, which must outlive the Job. One Reconcile is one step; the environment decides every API reply,
    may crash the operator after any apply, and moves the Job on its own. */
module Backtest {
  import opened Wrappers
  import opened Conditions

  datatype Phase = Unset | Pending | Running | Succeeded | Failed | Error

  datatype Job = Job(active: nat, succeeded: nat, failed: nat, startTime: Option<int>, completionTime: Option<int>)

  /** Everything applied before the Job, in order. */
  datatype Child =
    | ConfigSecret | StrategyConfigMap | ResultsPVC | SidecarServiceAccount | SidecarRole | SidecarRoleBinding

  const APPLY_ORDER: seq<Child> :=
    [ConfigSecret, StrategyConfigMap, ResultsPVC, SidecarServiceAccount, SidecarRole, SidecarRoleBinding]

  datatype Owner = Owner(uid: string, controller: bool)

  /** The sidecar's ConfigMap: an error message, or results.json (None when it does not parse). */
  datatype ResultsMap = ResultsMap(error: Option<string>, results: Option<Option<string>>, owners: seq<Owner>)

  datatype Status = Status(
    phase: Phase, message: string, conditions: seq<Condition>, jobName: string, resultsPVCName: string,
    startTime: Option<int>, completionTime: Option<int>, results: Option<string>)

  const EMPTY_STATUS := Status(Unset, "", [], "", "", None, None, None)

  datatype World = World(
    name: string, uid: string, job: Option<Job>, children: set<Child>, resultsMap: Option<ResultsMap>,
    status: Status, applies: nat)

  datatype Workload = Workload(
    running: bool, succeeded: bool, failed: bool, message: string, requeueAfter: nat,
    startTime: Option<int>, completionTime: Option<int>)

  datatype Lookup = Found | NotFound | LookupError

  datatype ApplyEnd = AllApplied | ApplyFailed(notFound: bool) | Crashed

  /** The environment's part in one Reconcile. */
  datatype Env = Env(
    staleCopy: Option<Status>,   // the status a lagging cache served, if it was not the stored one
    jobReadFails: bool,          // the Job read of reconcileResources fails, other than with NotFound
    jobSeen: Option<Option<Job>>,      // what it showed, if not the current Job
    references: Lookup, render: Lookup,
    applied: nat, applyEnd: ApplyEnd,
    jobLater: Option<Job>,       // the Job by the time of the second read
    jobRereadFails: bool,        // the Job read of computeWorkloadStatus fails, other than with NotFound
    jobReseen: Option<Option<Job>>,    // what it showed, if not the current Job
    resultsReadFails: bool, adoptFails: bool,
    patchOk: bool, generation: int, now: int, errorText: string)

  datatype Event =
    | Reconcile(env: Env)
    | JobMoves(job: Option<Job>)             // the Job controller, or the TTL controller reaping a finished Job
    | SidecarWrites(results: ResultsMap)

  /** A Job's counts never go down, and nobody but the operator creates one. */
  predicate CanBecome(before: Option<Job>, after: Option<Job>) {
    match (before, after)
    case (None, _) => after.None?
    case (Some(_), None) => true
    case (Some(j), Some(k)) => j.succeeded <= k.succeeded && j.failed <= k.failed
  }

  // ---------- Reading the workload ----------

  function RecordedOutcome(s: Status): Option<Workload> {
    var c := FindStatusCondition(s.conditions, WorkloadReady);
    if c.None? then None
    else if c.value.reason == WorkloadSucceeded then
      Some(Workload(false, true, false, s.message, 0, s.startTime, s.completionTime))
    else if c.value.reason == WorkloadFailed then
      Some(Workload(false, false, true, s.message, 0, s.startTime, s.completionTime))
    else None
  }

  function FromJob(j: Job): Workload {
    if j.succeeded > 0 then Workload(false, true, false, "", 0, j.startTime, j.completionTime)
    else if j.failed > 0 then
      Workload(false, false, true, "Job failed; check pod logs", 0, j.startTime, j.completionTime)
    else if j.active > 0 then Workload(true, false, false, "Job is running", 15, j.startTime, j.completionTime)
    else Workload(false, false, false, "Waiting for Job to start", 15, j.startTime, j.completionTime)
  }

  function ConditionStatusAndReason(w: Workload): (ConditionStatus, Reason) {
    if w.failed then (False, WorkloadFailed)
    else if w.succeeded then (True, WorkloadSucceeded)
    else (False, WorkloadProgressing)
  }

  function DerivePhase(w: Workload): Phase {
    if w.succeeded then Succeeded else if w.failed then Failed else if w.running then Running else Pending
  }

  // ---------- The two status writes ----------

  function FailStatus(s: Status, kind: ConditionType, reason: Reason, message: string, now: int): Status {
    var cs := SetStatusCondition(s.conditions, Make(kind, False, reason, message), now);
    s.(conditions := SetStatusCondition(cs, Make(Ready, False, reason, message), now),
       phase := Error, message := message)
  }

  function Fail(w: World, kind: ConditionType, reason: Reason, env: Env): World {
    if env.patchOk then w.(status := FailStatus(w.status, kind, reason, env.errorText, env.now)) else w
  }

  /** What reading the sidecar's ConfigMap contributes: results, and a ResultsAvailable condition if there is news. */
  datatype Harvest = Harvest(results: Option<string>, condition: Option<Condition>)

  function Unavailable(message: string, generation: int): Condition {
    Condition(ResultsAvailable, False, ResultsUnavailable, message, generation, 0)
  }

  function Parse(m: ResultsMap, generation: int): Harvest {
    if m.error.Some? then Harvest(None, Some(Unavailable(m.error.value, generation)))
    else if m.results.None? then Harvest(None, Some(Unavailable("neither results.json nor error", generation)))
    else if m.results.value.None? then Harvest(None, Some(Unavailable("results.json is malformed", generation)))
    else Harvest(m.results.value, Some(Condition(ResultsAvailable, True, AsExpected, "", generation, 0)))
  }

  function ReportConditions(s: Status, w: Workload, h: Harvest, now: int): seq<Condition> {
    var (status, reason) := ConditionStatusAndReason(w);
    var c1 := SetStatusCondition(s.conditions, Make(ConfigResolved, True, AsExpected, ""), now);
    var c2 := SetStatusCondition(c1, Make(WorkloadReady, status, reason, w.message), now);
    var c3 := SetStatusCondition(c2, Make(Ready, status, reason, w.message), now);
    if h.condition.Some? then SetStatusCondition(c3, h.condition.value, now) else c3
  }

  function Report(s: Status, name: string, w: Workload, h: Harvest, now: int): Status {
    Status(
      DerivePhase(w), w.message, ReportConditions(s, w, h, now), name, name + "-results",
      if w.startTime.Some? then w.startTime else s.startTime,
      if w.completionTime.Some? then w.completionTime else s.completionTime,
      if h.results.Some? then h.results else s.results)
  }

  // ---------- One reconcile ----------

  function Copy(w: World, env: Env): Status {
    if env.staleCopy.Some? then env.staleCopy.value else w.status
  }

  /** What a read of the Job shows: the current one, or what a lagging cache has. */
  function Shown(job: Option<Job>, lagging: Option<Option<Job>>): Option<Job> {
    if lagging.Some? then lagging.value else job
  }

  const ALL_CHILDREN: set<Child> :=
    {ConfigSecret, StrategyConfigMap, ResultsPVC, SidecarServiceAccount, SidecarRole, SidecarRoleBinding}

  /** The world after the first n applies of the fixed order took effect; applying a Job that exists keeps it. */
  function Applied(w: World, n: nat): World {
    if n == 0 then w
    else if n <= |APPLY_ORDER| then
      var before := Applied(w, n - 1);
      before.(children := before.children + {APPLY_ORDER[n - 1]})
    else Applied(w, |APPLY_ORDER|).(job := Started(w.job))
  }

  function Started(job: Option<Job>): Option<Job> {
    if job.Some? then job else Some(Job(0, 0, 0, None, None))
  }

  /** How many applies a reconcile issues: a failed one was issued too. */
  function Issued(env: Env): nat {
    if env.applyEnd.AllApplied? then |APPLY_ORDER| + 1
    else if env.applyEnd.ApplyFailed? then env.applied + 1 else env.applied
  }

  datatype Stage = Proceed(w: World) | Stop(w: World)

  function Resources(w: World, env: Env): Stage {
    if env.jobReadFails then Stop(Fail(w, ConfigResolved, ReconcileError, env))
    else if Shown(w.job, env.jobSeen).Some? || RecordedOutcome(Copy(w, env)).Some? then Proceed(w)
    else if env.references != Found then
      Stop(Fail(w, ConfigResolved, if env.references == NotFound then ReferenceNotFound else ReconcileError, env))
    else if env.render != Found then
      Stop(Fail(w, ConfigResolved, if env.render == NotFound then ReferenceNotFound else ReconcileError, env))
    else
      var w1 := Applied(w, if env.applyEnd.AllApplied? then |APPLY_ORDER| + 1 else env.applied)
                  .(applies := w.applies + Issued(env));
      match env.applyEnd
      case AllApplied => Proceed(w1)
      case ApplyFailed(notFound) =>
        Stop(Fail(w1, ConfigResolved, if notFound then ReferenceNotFound else ReconcileError, env))
      case Crashed => Stop(w1)
  }

  function ReadWorkload(w: World, copy: Status, env: Env): Option<Workload> {
    var job := Shown(w.job, env.jobReseen);
    if env.jobRereadFails then None
    else if job.Some? then Some(FromJob(job.value))
    else RecordedOutcome(copy)
  }

  predicate OwnedByOther(m: ResultsMap, uid: string) {
    exists o :: o in m.owners && o.controller && o.uid != uid
  }

  predicate OwnedBy(m: ResultsMap, uid: string) {
    exists o :: o in m.owners && o.uid == uid
  }

  /** Adoption: nothing to do if already an owner; refused while another controller owns the map. */
  function Adopt(m: ResultsMap, uid: string, fails: bool): Option<ResultsMap> {
    if OwnedBy(m, uid) then Some(m)
    else if OwnedByOther(m, uid) || fails then None
    else Some(m.(owners := m.owners + [Owner(uid, true)]))
  }

  function Finish(w: World, copy: Status, workload: Workload, env: Env): World {
    if !(workload.succeeded && copy.results.None?) then
      if env.patchOk then w.(status := Report(w.status, w.name, workload, Harvest(None, None), env.now)) else w
    else if env.resultsReadFails then Fail(w, ResultsAvailable, ReconcileError, env)
    else if w.resultsMap.None? then
      if env.patchOk then w.(status := Report(w.status, w.name, workload, Harvest(None, None), env.now)) else w
    else
      var adopted := Adopt(w.resultsMap.value, w.uid, env.adoptFails);
      if adopted.None? then Fail(w, ResultsAvailable, ReconcileError, env)
      else
        var w1 := w.(resultsMap := adopted);
        if env.patchOk
        then w1.(status := Report(w1.status, w1.name, workload, Parse(adopted.value, env.generation), env.now))
        else w1
  }

  function ReconcileStep(w: World, env: Env): World {
    match Resources(w, env)
    case Stop(w1) => w1
    case Proceed(w1) =>
      var w2 := if CanBecome(w1.job, env.jobLater) then w1.(job := env.jobLater) else w1;
      var workload := ReadWorkload(w2, Copy(w, env), env);
      if workload.None? then Fail(w2, WorkloadReady, ReconcileError, env)
      else Finish(w2, Copy(w, env), workload.value, env)
  }

  function Next(w: World, e: Event): World {
    match e
    case Reconcile(env) => ReconcileStep(w, env)
    case JobMoves(job) => if CanBecome(w.job, job) then w.(job := job) else w
    case SidecarWrites(m) => if w.resultsMap.None? then w.(resultsMap := Some(m)) else w
  }

  function RunFrom(w: World, events: seq<Event>): World {
    if events == [] then w else Next(RunFrom(w, events[..|events| - 1]), events[|events| - 1])
  }

  function New(name: string, uid: string): World {
    World(name, uid, None, {}, None, EMPTY_STATUS, 0)
  }

  // ---------- The Job is a commit record ----------

  lemma {:induction false} AppliedPrefix(w: World, n: nat)
    requires n <= |APPLY_ORDER|
    ensures Applied(w, n) == w.(children := w.children + set i | 0 <= i < n :: APPLY_ORDER[i])
  {
    if n > 0 {
      AppliedPrefix(w, n - 1);
      assert (set i | 0 <= i < n :: APPLY_ORDER[i])
          == (set i | 0 <= i < n - 1 :: APPLY_ORDER[i]) + {APPLY_ORDER[n - 1]};
    }
  }

  lemma AppliedAll(w: World, n: nat)
    requires n > |APPLY_ORDER|
    ensures Applied(w, n) == w.(children := w.children + ALL_CHILDREN, job := Started(w.job))
  {
    AppliedPrefix(w, |APPLY_ORDER|);
    var s := set i | 0 <= i < |APPLY_ORDER| :: APPLY_ORDER[i];
    forall c: Child ensures c in s {
      match c
      case ConfigSecret => assert APPLY_ORDER[0] == c;
      case StrategyConfigMap => assert APPLY_ORDER[1] == c;
      case ResultsPVC => assert APPLY_ORDER[2] == c;
      case SidecarServiceAccount => assert APPLY_ORDER[3] == c;
      case SidecarRole => assert APPLY_ORDER[4] == c;
      case SidecarRoleBinding => assert APPLY_ORDER[5] == c;
    }
    assert s == ALL_CHILDREN;
  }

  ghost predicate JobCommits(w: World) {
    w.job.Some? ==> ALL_CHILDREN <= w.children
  }

  lemma ResourcesKeepsJobCommits(w: World, env: Env)
    requires JobCommits(w)
    ensures JobCommits(Resources(w, env).w) && w.children <= Resources(w, env).w.children
  {
    var n := if env.applyEnd.AllApplied? then |APPLY_ORDER| + 1 else env.applied;
    if n > |APPLY_ORDER| { AppliedAll(w, n); } else { AppliedPrefix(w, n); }
  }

  lemma NextKeepsJobCommits(w: World, e: Event)
    requires JobCommits(w)
    ensures JobCommits(Next(w, e)) && w.children <= Next(w, e).children
  {
    if e.Reconcile? { ResourcesKeepsJobCommits(w, e.env); }
  }

  /** In every run, with a failure, a lost reply or a crash after any apply: while the Job exists, everything it needs
      has been applied. */
  lemma {:induction false} JobIsCommitRecord(name: string, uid: string, events: seq<Event>)
    ensures JobCommits(RunFrom(New(name, uid), events))
  {
    if events != [] {
      JobIsCommitRecord(name, uid, events[..|events| - 1]);
      NextKeepsJobCommits(RunFrom(New(name, uid), events[..|events| - 1]), events[|events| - 1]);
    }
  }

  ghost predicate Undisturbed(env: Env) {
    && env.staleCopy.None? && !env.jobReadFails && env.jobSeen.None? && env.references == Found && env.render == Found
    && env.applyEnd.AllApplied?
  }

  /** From any partial state a crash left, one undisturbed reconcile completes the same set, Job included. */
  lemma RerunCompletes(w: World, env: Env)
    requires JobCommits(w) && w.job.None? && RecordedOutcome(w.status).None? && Undisturbed(env)
    ensures Resources(w, env)
         == Proceed(w.(children := w.children + ALL_CHILDREN, job := Some(Job(0, 0, 0, None, None)),
                       applies := w.applies + 7))
  {
    AppliedAll(w, |APPLY_ORDER| + 1);
  }

  /** An existing Job is never started anew: whatever a step was shown, it leaves the Job that is there, moves it on, or
      finds it reaped. */
  lemma {:induction false} ExistingJobIsKept(w: World, e: Event)
    requires w.job.Some?
    ensures CanBecome(w.job, Next(w, e).job)
    ensures e.Reconcile? && e.env.jobLater == w.job ==> Next(w, e).job == w.job
  {
    if e.Reconcile? {
      var n := if e.env.applyEnd.AllApplied? then |APPLY_ORDER| + 1 else e.env.applied;
      if n > |APPLY_ORDER| { AppliedAll(w, n); } else { AppliedPrefix(w, n); }
      assert Resources(w, e.env).w.job == w.job;
    }
  }

  // ---------- The outcome is recorded once and for all ----------

  ghost predicate Fresh(e: Event) {
    e.Reconcile? ==> e.env.staleCopy.None?
  }

  /** The Backtest read is current, and the Job read of computeWorkloadStatus is current or fails with NotFound; the
      Job read of reconcileResources may lag. */
  ghost predicate Clean(e: Event) {
    Fresh(e) && (e.Reconcile? ==> !e.env.jobRereadFails && e.env.jobReseen.None?)
  }

  /** The record never claims more than the Job shows. */
  ghost predicate RecordAgrees(w: World) {
    var r := RecordedOutcome(w.status);
    r.Some? && w.job.Some? ==>
      && (r.value.succeeded ==> w.job.value.succeeded > 0)
      && (r.value.failed ==> w.job.value.succeeded > 0 || w.job.value.failed > 0)
  }

  lemma AfterFail(s: Status, kind: ConditionType, reason: Reason, message: string, now: int, k: ConditionType)
    requires kind != Ready
    ensures
      var found := FindStatusCondition(FailStatus(s, kind, reason, message, now).conditions, k);
      if k == kind || k == Ready then found.Some? && found.value.status == False && found.value.reason == reason
      else found == FindStatusCondition(s.conditions, k)
  {
    FindAfterSet(s.conditions, Make(kind, False, reason, message), now, k);
    FindAfterSet(SetStatusCondition(s.conditions, Make(kind, False, reason, message), now),
                 Make(Ready, False, reason, message), now, k);
  }

  lemma AfterReport(s: Status, w: Workload, h: Harvest, now: int, k: ConditionType)
    requires h.condition.Some? ==> h.condition.value.kind == ResultsAvailable
    ensures
      var found := FindStatusCondition(ReportConditions(s, w, h, now), k);
      && (k == WorkloadReady || k == Ready ==>
            found.Some? && found.value.status == ConditionStatusAndReason(w).0
            && found.value.reason == ConditionStatusAndReason(w).1)
      && (k == ResultsAvailable ==>
            if h.condition.Some? then found.Some? && found.value.status == h.condition.value.status
            else found == FindStatusCondition(s.conditions, k))
  {
    var (status, reason) := ConditionStatusAndReason(w);
    var a := Make(ConfigResolved, True, AsExpected, "");
    var b := Make(WorkloadReady, status, reason, w.message);
    var c := Make(Ready, status, reason, w.message);
    FindAfterSet(s.conditions, a, now, k);
    var c1 := SetStatusCondition(s.conditions, a, now);
    FindAfterSet(c1, b, now, k);
    var c2 := SetStatusCondition(c1, b, now);
    FindAfterSet(c2, c, now, k);
    if h.condition.Some? { FindAfterSet(SetStatusCondition(c2, c, now), h.condition.value, now, k); }
  }

  lemma FailedRecord(s: Status, kind: ConditionType, reason: Reason, message: string, now: int)
    requires kind != Ready && (kind == WorkloadReady ==> reason == ReconcileError)
    ensures var r := RecordedOutcome(FailStatus(s, kind, reason, message, now));
            if kind == WorkloadReady then r.None?
            else r.Some? == RecordedOutcome(s).Some?
                 && (r.Some? ==> r.value.succeeded == RecordedOutcome(s).value.succeeded
                                 && r.value.failed == RecordedOutcome(s).value.failed)
  {
    AfterFail(s, kind, reason, message, now, WorkloadReady);
  }

  lemma ReportedRecord(s: Status, name: string, w: Workload, h: Harvest, now: int)
    requires h.condition.Some? ==> h.condition.value.kind == ResultsAvailable
    requires !(w.succeeded && w.failed)
    ensures var r := RecordedOutcome(Report(s, name, w, h, now));
            r.Some? == (w.succeeded || w.failed)
            && (r.Some? ==> r.value.succeeded == w.succeeded && r.value.failed == w.failed)
  {
    AfterReport(s, w, h, now, WorkloadReady);
  }

  ghost predicate SameRecord(a: Option<Workload>, b: Option<Workload>) {
    a.Some? == b.Some? && (a.Some? ==> a.value.succeeded == b.value.succeeded && a.value.failed == b.value.failed)
  }

  ghost predicate RecordIs(r: Option<Workload>, w: Workload) {
    r.Some? == (w.succeeded || w.failed) && (r.Some? ==> r.value.succeeded == w.succeeded && r.value.failed == w.failed)
  }

  /** The last phase of a reconcile leaves the record as it was, or makes it the workload just read. */
  lemma FinishRecords(w: World, copy: Status, workload: Workload, env: Env)
    requires !(workload.succeeded && workload.failed)
    ensures
      var w' := Finish(w, copy, workload, env);
      && w' == w.(status := w'.status, resultsMap := w'.resultsMap)
      && (|| SameRecord(RecordedOutcome(w'.status), RecordedOutcome(w.status))
          || RecordIs(RecordedOutcome(w'.status), workload))
  {
    if !(workload.succeeded && copy.results.None?) {
      ReportedRecord(w.status, w.name, workload, Harvest(None, None), env.now);
    } else if env.resultsReadFails {
      FailedRecord(w.status, ResultsAvailable, ReconcileError, env.errorText, env.now);
    } else if w.resultsMap.None? {
      ReportedRecord(w.status, w.name, workload, Harvest(None, None), env.now);
    } else {
      var adopted := Adopt(w.resultsMap.value, w.uid, env.adoptFails);
      if adopted.None? { FailedRecord(w.status, ResultsAvailable, ReconcileError, env.errorText, env.now); }
      else { ReportedRecord(w.status, w.name, workload, Parse(adopted.value, env.generation), env.now); }
    }
  }

  /** One clean reconcile of a finished Backtest: no apply, no new Job, and the record stays or moves from Failed to
      Succeeded. */
  lemma {:induction false} FinishedStaysFinished(w: World, e: Event)
    requires RecordAgrees(w) && RecordedOutcome(w.status).Some? && Clean(e)
    ensures
      var w' := Next(w, e);
      && w'.applies == w.applies && w'.children == w.children && CanBecome(w.job, w'.job)
      && RecordAgrees(w') && RecordedOutcome(w'.status).Some?
      && (RecordedOutcome(w.status).value.succeeded ==> RecordedOutcome(w'.status).value.succeeded)
  {
    if e.Reconcile? {
      var env := e.env;
      if env.jobReadFails {
        FailedRecord(w.status, ConfigResolved, ReconcileError, env.errorText, env.now);
      } else {
        var w2 := if CanBecome(w.job, env.jobLater) then w.(job := env.jobLater) else w;
        FinishRecords(w2, w.status, ReadWorkload(w2, w.status, env).value, env);
      }
    }
  }

  lemma CanBecomeTransitive(a: Option<Job>, b: Option<Job>, c: Option<Job>)
    requires CanBecome(a, b) && CanBecome(b, c)
    ensures CanBecome(a, c)
  {}

  /** Once the outcome is recorded, then in every clean run nothing is applied again, not even after the Job was reaped,
      no Job comes back, and the outcome only ever moves from Failed to Succeeded. */
  lemma {:induction false} OutcomeIsFinal(w: World, events: seq<Event>)
    requires RecordAgrees(w) && RecordedOutcome(w.status).Some?
    requires forall e :: e in events ==> Clean(e)
    ensures
      var w' := RunFrom(w, events);
      && w'.applies == w.applies && w'.children == w.children && CanBecome(w.job, w'.job)
      && RecordAgrees(w') && RecordedOutcome(w'.status).Some?
      && (RecordedOutcome(w.status).value.succeeded ==> RecordedOutcome(w'.status).value.succeeded)
  {
    if events != [] {
      var init := events[..|events| - 1];
      OutcomeIsFinal(w, init);
      FinishedStaysFinished(RunFrom(w, init), events[|events| - 1]);
      CanBecomeTransitive(w.job, RunFrom(w, init).job, RunFrom(w, events).job);
    }
  }

  lemma UnfinishedAgrees(w: World, e: Event)
    requires RecordedOutcome(w.status).None? && Clean(e)
    ensures RecordAgrees(Next(w, e))
  {
    if e.Reconcile? {
      var env := e.env;
      ResourcesKeepStatus(w, env);
      var stage := Resources(w, env);
      if stage.Proceed? {
        var w1 := stage.w;
        var w2 := if CanBecome(w1.job, env.jobLater) then w1.(job := env.jobLater) else w1;
        FailedRecord(w.status, WorkloadReady, ReconcileError, env.errorText, env.now);
        var workload := ReadWorkload(w2, w.status, env);
        if workload.Some? { FinishRecords(w2, w.status, workload.value, env); }
      } else {
        forall reason: Reason { FailedRecord(w.status, ConfigResolved, reason, env.errorText, env.now); }
      }
    }
  }

  lemma ResourcesKeepStatus(w: World, env: Env)
    ensures Resources(w, env).Proceed? ==>
              Resources(w, env).w.status == w.status && Resources(w, env).w.resultsMap == w.resultsMap
              && Resources(w, env).w.name == w.name && Resources(w, env).w.uid == w.uid
    ensures Resources(w, env).Stop? ==>
              Resources(w, env).w.status == w.status
              || exists reason ::
                   Resources(w, env).w.status == FailStatus(w.status, ConfigResolved, reason, env.errorText, env.now)
    ensures Resources(w, env).w.resultsMap == w.resultsMap
  {
    var n := if env.applyEnd.AllApplied? then |APPLY_ORDER| + 1 else env.applied;
    if n > |APPLY_ORDER| { AppliedAll(w, n); } else { AppliedPrefix(w, n); }
  }

  /** The hypothesis of OutcomeIsFinal holds in every clean run of a new Backtest. */
  lemma {:induction false} CleanRunsAgree(name: string, uid: string, events: seq<Event>)
    requires forall e :: e in events ==> Clean(e)
    ensures RecordAgrees(RunFrom(New(name, uid), events))
  {
    if events != [] {
      var init, e := events[..|events| - 1], events[|events| - 1];
      CleanRunsAgree(name, uid, init);
      var w := RunFrom(New(name, uid), init);
      if RecordedOutcome(w.status).Some? { FinishedStaysFinished(w, e); } else { UnfinishedAgrees(w, e); }
    }
  }

  // ---------- Exactly when the record protects the run ----------

  /** What a caller can tell before a reconcile that will issue applies: it is shown no Job, its copy of the Backtest
      records no outcome, and references and render succeed. The copy it read decides, not the stored status. */
  predicate WillApply(w: World, e: Event) {
    e.Reconcile? &&
    var env := e.env;
    && !env.jobReadFails && Shown(w.job, env.jobSeen).None? && RecordedOutcome(Copy(w, env)).None?
    && env.references == Found && env.render == Found && Issued(env) > 0
  }

  lemma {:induction false} AppliesExactlyWhenUnrecorded(w: World, e: Event)
    ensures if WillApply(w, e) then Next(w, e).applies == w.applies + Issued(e.env) else Next(w, e).applies == w.applies
  {
    if e.Reconcile? {
      var n := if e.env.applyEnd.AllApplied? then |APPLY_ORDER| + 1 else e.env.applied;
      if n > |APPLY_ORDER| { AppliedAll(w, n); } else { AppliedPrefix(w, n); }
    }
  }

  predicate WillApplyAt(w: World, events: seq<Event>, i: nat)
    requires i < |events|
  {
    WillApply(RunFrom(w, events[..i]), events[i])
  }

  /** Over any run at all, with any lagging reads: something is applied exactly when at some step such a reconcile
      comes. */
  lemma {:induction false} RunAppliesExactly(w: World, events: seq<Event>)
    ensures RunFrom(w, events).applies >= w.applies
    ensures RunFrom(w, events).applies > w.applies <==> exists i :: 0 <= i < |events| && WillApplyAt(w, events, i)
  {
    if events != [] {
      var n := |events| - 1;
      RunAppliesExactly(w, events[..n]);
      AppliesExactlyWhenUnrecorded(RunFrom(w, events[..n]), events[n]);
      assert WillApplyAt(w, events, n) <==> WillApply(RunFrom(w, events[..n]), events[n]);
      forall i | 0 <= i < n ensures WillApplyAt(w, events[..n], i) == WillApplyAt(w, events, i) {
        assert events[..n][..i] == events[..i];
      }
    }
  }

  /** The record outlives a reconcile exactly when computeWorkloadStatus neither fails to read the Job nor is shown an
      older, unfinished one, or the status write does not go through: what it reports overwrites the very condition
      the record lives in. */
  lemma RecordSurvivesExactly(w: World, env: Env)
    requires RecordAgrees(w) && RecordedOutcome(w.status).Some? && env.staleCopy.None?
    ensures RecordedOutcome(ReconcileStep(w, env).status).Some?
       <==> !(!env.jobReadFails && env.patchOk && (env.jobRereadFails || ShowsUnfinished(env.jobReseen)))
  {
    if env.jobReadFails {
      FailedRecord(w.status, ConfigResolved, ReconcileError, env.errorText, env.now);
    } else if env.jobRereadFails {
      FailedRecord(w.status, WorkloadReady, ReconcileError, env.errorText, env.now);
    } else if ShowsUnfinished(env.jobReseen) {
      ReportedRecord(w.status, w.name, FromJob(env.jobReseen.value.value), Harvest(None, None), env.now);
    } else {
      var w2 := if CanBecome(w.job, env.jobLater) then w.(job := env.jobLater) else w;
      FinishRecords(w2, w.status, ReadWorkload(w2, w.status, env).value, env);
    }
  }

  predicate ShowsUnfinished(seen: Option<Option<Job>>) {
    seen.Some? && seen.value.Some? && seen.value.value.succeeded == 0 && seen.value.value.failed == 0
  }

  lemma RereadErrorLosesRecord(w: World, bad: Env)
    requires RecordedOutcome(w.status).Some?
    requires bad.staleCopy.None? && !bad.jobReadFails && bad.jobRereadFails && bad.patchOk
    ensures RecordedOutcome(ReconcileStep(w, bad).status).None? && ReconcileStep(w, bad).applies == w.applies
  {
    FailedRecord(w.status, WorkloadReady, ReconcileError, bad.errorText, bad.now);
  }

  lemma {:induction false} UnrecordedRunsAgain(w: World, next: Env)
    requires w.job.None? && RecordedOutcome(w.status).None? && Undisturbed(next)
    ensures ReconcileStep(w, next).applies == w.applies + 7
    ensures Resources(w, next).w.job == Some(Job(0, 0, 0, None, None))
  {
    AppliedAll(w, |APPLY_ORDER| + 1);
  }

  /** And a lost record is enough to run the whole Backtest a second time: whatever finished Backtest it was, once its
      Job is reaped the next undisturbed reconcile applies everything again and creates a new Job. */
  lemma LostRecordRunsAgain(w: World, bad: Env, next: Env)
    requires w.job.Some? && RecordedOutcome(w.status).Some?
    requires bad.staleCopy.None? && !bad.jobReadFails && bad.jobRereadFails && bad.patchOk
    requires Undisturbed(next)
    ensures var reaped := Next(Next(w, Reconcile(bad)), JobMoves(None));
            && Next(reaped, Reconcile(next)).applies == w.applies + 7
            && Resources(reaped, next).w.job == Some(Job(0, 0, 0, None, None))
  {
    RereadErrorLosesRecord(w, bad);
    UnrecordedRunsAgain(Next(Next(w, Reconcile(bad)), JobMoves(None)), next);
  }

  // ---------- Results and readiness ----------

  ghost predicate ReadyAgrees(s: Status) {
    IsStatusConditionTrue(s.conditions, Ready) <==> s.phase == Succeeded
  }

  ghost predicate ResultsAgree(s: Status) {
    s.results.Some? <==> IsStatusConditionTrue(s.conditions, ResultsAvailable)
  }

  lemma FailAgrees(s: Status, kind: ConditionType, reason: Reason, message: string, now: int)
    requires kind != Ready
    ensures ReadyAgrees(FailStatus(s, kind, reason, message, now))
    ensures FailStatus(s, kind, reason, message, now).results == s.results
    ensures ResultsAgree(s) && (kind == ResultsAvailable ==> s.results.None?)
            ==> ResultsAgree(FailStatus(s, kind, reason, message, now))
  {
    AfterFail(s, kind, reason, message, now, Ready);
    AfterFail(s, kind, reason, message, now, ResultsAvailable);
  }

  lemma ReportAgrees(s: Status, name: string, w: Workload, h: Harvest, now: int)
    requires h.condition.Some? ==> h.condition.value.kind == ResultsAvailable
    requires h.results.Some? <==> h.condition.Some? && h.condition.value.status == True
    requires !(w.succeeded && w.failed)
    ensures ReadyAgrees(Report(s, name, w, h, now))
    ensures ResultsAgree(s) && (h.condition.Some? ==> s.results.None?) ==>
              ResultsAgree(Report(s, name, w, h, now))
              && (s.results.Some? ==> Report(s, name, w, h, now).results == s.results)
  {
    AfterReport(s, w, h, now, Ready);
    AfterReport(s, w, h, now, ResultsAvailable);
  }

  lemma FinishAgrees(w: World, copy: Status, workload: Workload, env: Env)
    requires !(workload.succeeded && workload.failed)
    ensures ReadyAgrees(w.status) ==> ReadyAgrees(Finish(w, copy, workload, env).status)
    ensures copy == w.status && ResultsAgree(w.status) ==>
              ResultsAgree(Finish(w, copy, workload, env).status)
              && (w.status.results.Some? ==> Finish(w, copy, workload, env).status.results == w.status.results)
  {
    if !(workload.succeeded && copy.results.None?) {
      ReportAgrees(w.status, w.name, workload, Harvest(None, None), env.now);
    } else if env.resultsReadFails {
      FailAgrees(w.status, ResultsAvailable, ReconcileError, env.errorText, env.now);
    } else if w.resultsMap.None? {
      ReportAgrees(w.status, w.name, workload, Harvest(None, None), env.now);
    } else {
      var adopted := Adopt(w.resultsMap.value, w.uid, env.adoptFails);
      if adopted.None? { FailAgrees(w.status, ResultsAvailable, ReconcileError, env.errorText, env.now); }
      else { ReportAgrees(w.status, w.name, workload, Parse(adopted.value, env.generation), env.now); }
    }
  }

  lemma NextAgrees(w: World, e: Event)
    ensures ReadyAgrees(w.status) ==> ReadyAgrees(Next(w, e).status)
    ensures Fresh(e) && ResultsAgree(w.status) ==>
              ResultsAgree(Next(w, e).status)
              && (w.status.results.Some? ==> Next(w, e).status.results == w.status.results)
  {
    if e.Reconcile? {
      var env := e.env;
      ResourcesKeepStatus(w, env);
      var stage := Resources(w, env);
      if stage.Proceed? {
        var w2 := if CanBecome(stage.w.job, env.jobLater) then stage.w.(job := env.jobLater) else stage.w;
        FailAgrees(w.status, WorkloadReady, ReconcileError, env.errorText, env.now);
        var workload := ReadWorkload(w2, Copy(w, env), env);
        if workload.Some? { FinishAgrees(w2, Copy(w, env), workload.value, env); }
      } else {
        forall reason: Reason { FailAgrees(w.status, ConfigResolved, reason, env.errorText, env.now); }
      }
    }
  }

  /** In every run, stale reads included, Ready is True exactly when the phase is Succeeded. */
  lemma {:induction false} ReadyIffSucceeded(name: string, uid: string, events: seq<Event>)
    ensures ReadyAgrees(RunFrom(New(name, uid), events).status)
  {
    if events != [] {
      ReadyIffSucceeded(name, uid, events[..|events| - 1]);
      NextAgrees(RunFrom(New(name, uid), events[..|events| - 1]), events[|events| - 1]);
    }
  }

  /** In every run whose reconciles read the current Backtest, results are present exactly when ResultsAvailable is
      True. */
  lemma {:induction false} ResultsIffAvailable(name: string, uid: string, events: seq<Event>)
    requires forall e :: e in events ==> Fresh(e)
    ensures ResultsAgree(RunFrom(New(name, uid), events).status)
  {
    if events != [] {
      ResultsIffAvailable(name, uid, events[..|events| - 1]);
      NextAgrees(RunFrom(New(name, uid), events[..|events| - 1]), events[|events| - 1]);
    }
  }

  /** Results, once stored, are never replaced or dropped by any later such run. */
  lemma {:induction false} ResultsAreWriteOnce(w: World, events: seq<Event>)
    requires ResultsAgree(w.status) && w.status.results.Some?
    requires forall e :: e in events ==> Fresh(e)
    ensures RunFrom(w, events).status.results == w.status.results && ResultsAgree(RunFrom(w, events).status)
  {
    if events != [] {
      ResultsAreWriteOnce(w, events[..|events| - 1]);
      NextAgrees(RunFrom(w, events[..|events| - 1]), events[|events| - 1]);
    }
  }

  // ---------- The phase ----------

  /** The phase names the recorded outcome, and a phase of a run under way stands for none. */
  ghost predicate PhaseIsRecorded(s: Status) {
    match s.phase
    case Unset => s == EMPTY_STATUS
    case Succeeded => RecordedOutcome(s).Some? && RecordedOutcome(s).value.succeeded
    case Failed => RecordedOutcome(s).Some? && RecordedOutcome(s).value.failed
    case Error => IsStatusConditionFalse(s.conditions, Ready)
    case _ => RecordedOutcome(s).None? && FindStatusCondition(s.conditions, WorkloadReady).Some?
  }

  lemma {:induction false} FailedPhase(s: Status, kind: ConditionType, reason: Reason, message: string, now: int)
    requires kind != Ready
    ensures FailStatus(s, kind, reason, message, now).phase == Error
    ensures PhaseIsRecorded(FailStatus(s, kind, reason, message, now))
  {
    AfterFail(s, kind, reason, message, now, Ready);
  }

  lemma {:induction false} ReportedPhase(s: Status, name: string, w: Workload, h: Harvest, now: int)
    requires h.condition.Some? ==> h.condition.value.kind == ResultsAvailable
    requires !(w.succeeded && w.failed)
    ensures PhaseIsRecorded(Report(s, name, w, h, now))
  {
    AfterReport(s, w, h, now, WorkloadReady);
  }

  lemma {:induction false} FinishPhase(w: World, copy: Status, workload: Workload, env: Env)
    requires !(workload.succeeded && workload.failed) && PhaseIsRecorded(w.status)
    ensures PhaseIsRecorded(Finish(w, copy, workload, env).status)
  {
    ReportedPhase(w.status, w.name, workload, Harvest(None, None), env.now);
    FailedPhase(w.status, ResultsAvailable, ReconcileError, env.errorText, env.now);
    if w.resultsMap.Some? && Adopt(w.resultsMap.value, w.uid, env.adoptFails).Some? {
      var adopted := Adopt(w.resultsMap.value, w.uid, env.adoptFails).value;
      ReportedPhase(w.status, w.name, workload, Parse(adopted, env.generation), env.now);
    }
  }

  /** In every run, with any reads, failures and crashes: phase Succeeded or Failed means that this very outcome is on
      record, and phase Running or Pending that none is. */
  lemma {:induction false} PhaseIsOutcome(name: string, uid: string, events: seq<Event>)
    ensures PhaseIsRecorded(RunFrom(New(name, uid), events).status)
  {
    if events != [] {
      var w, e := RunFrom(New(name, uid), events[..|events| - 1]), events[|events| - 1];
      PhaseIsOutcome(name, uid, events[..|events| - 1]);
      if e.Reconcile? {
        var env := e.env;
        ResourcesKeepStatus(w, env);
        var stage := Resources(w, env);
        forall reason: Reason { FailedPhase(w.status, ConfigResolved, reason, env.errorText, env.now); }
        if stage.Proceed? {
          var w2 := if CanBecome(stage.w.job, env.jobLater) then stage.w.(job := env.jobLater) else stage.w;
          FailedPhase(w.status, WorkloadReady, ReconcileError, env.errorText, env.now);
          var workload := ReadWorkload(w2, Copy(w, env), env);
          if workload.Some? { FinishPhase(w2, Copy(w, env), workload.value, env); }
        }
      }
    }
  }

  // ---------- What one report says ----------

  /** The sidecar's ConfigMap can be taken over: this Backtest owns it already, or no controller but it does and the
      update goes through. */
  predicate Adoptable(m: ResultsMap, uid: string, env: Env) {
    (exists o :: o in m.owners && o.uid == uid)
    || (!env.adoptFails && forall o :: o in m.owners && o.controller ==> o.uid == uid)
  }

  /** This reconcile gets to its report, of the Job j. */
  predicate ReportsOn(w: World, env: Env, j: Job) {
    && !env.jobReadFails && w.job.Some? && env.jobSeen.None? && !env.jobRereadFails && env.patchOk
    && (env.jobReseen == Some(Some(j)) || (env.jobReseen.None? && env.jobLater == Some(j) && CanBecome(w.job, Some(j))))
    && (j.succeeded > 0 && Copy(w, env).results.None? ==>
          !env.resultsReadFails && (w.resultsMap.Some? ==> Adoptable(w.resultsMap.value, w.uid, env)))
  }

  lemma {:induction false} ReportIsWritten(w: World, env: Env, j: Job) returns (h: Harvest)
    requires ReportsOn(w, env, j)
    ensures ReconcileStep(w, env).status == Report(w.status, w.name, FromJob(j), h, env.now)
  {
    h := Harvest(None, None);
    if j.succeeded > 0 && Copy(w, env).results.None? && w.resultsMap.Some? {
      h := Parse(Adopt(w.resultsMap.value, w.uid, env.adoptFails).value, env.generation);
    }
  }

  /** The Job's own counts decide what is reported: success before failure before activity. Its times are kept once
      known, and the names are this Backtest's. */
  lemma {:induction false} JobDecidesReport(w: World, env: Env, j: Job)
    requires ReportsOn(w, env, j)
    ensures
      var s := ReconcileStep(w, env).status;
      && (s.phase == Succeeded <==> j.succeeded > 0)
      && (s.phase == Failed <==> j.succeeded == 0 && j.failed > 0)
      && (s.phase == Running <==> j.succeeded == 0 && j.failed == 0 && j.active > 0)
      && (s.phase == Pending <==> j.succeeded == 0 && j.failed == 0 && j.active == 0)
      && (s.message == "" <==> j.succeeded > 0)
      && s.startTime == (if j.startTime.Some? then j.startTime else w.status.startTime)
      && s.completionTime == (if j.completionTime.Some? then j.completionTime else w.status.completionTime)
      && s.jobName == w.name && s.resultsPVCName == w.name + "-results"
  {
    var h := ReportIsWritten(w, env, j);
  }

  /** The first report of success takes the results over from the sidecar's ConfigMap: they are stored exactly when it
      has no error and its results parse, and then as they are; the ConfigMap gets this Backtest as its controller,
      after the owners it had, unless it is an owner already. */
  lemma {:induction false} ResultsAreHarvested(w: World, env: Env, j: Job)
    requires ReportsOn(w, env, j) && j.succeeded > 0 && env.staleCopy.None? && w.status.results.None?
    requires w.resultsMap.Some?
    ensures
      var w', m := ReconcileStep(w, env), w.resultsMap.value;
      && w'.status.results == (if m.error.None? && m.results.Some? then m.results.value else None)
      && (IsStatusConditionTrue(w'.status.conditions, ResultsAvailable) <==> w'.status.results.Some?)
      && (IsStatusConditionFalse(w'.status.conditions, ResultsAvailable) <==> w'.status.results.None?)
      && w'.resultsMap == Some(m.(owners :=
           if exists o :: o in m.owners && o.uid == w.uid then m.owners else m.owners + [Owner(w.uid, true)]))
  {
    var m := w.resultsMap.value;
    var adopted := Adopt(m, w.uid, env.adoptFails).value;
    AfterReport(w.status, FromJob(j), Parse(adopted, env.generation), env.now, ResultsAvailable);
  }

  /** After the Job is reaped, a clean reconcile reports the recorded outcome again, word for word and with its
      times. */
  lemma {:induction false} ReapedReportStands(w: World, env: Env)
    requires Clean(Reconcile(env)) && !env.jobReadFails && env.patchOk && w.job.None?
    requires RecordedOutcome(w.status).Some? && PhaseIsRecorded(w.status) && w.status.phase in {Succeeded, Failed}
    requires w.status.phase == Succeeded && w.status.results.None? ==> w.resultsMap.None? && !env.resultsReadFails
    ensures
      var s := ReconcileStep(w, env).status;
      && s.phase == w.status.phase && s.message == w.status.message && s.results == w.status.results
      && s.startTime == w.status.startTime && s.completionTime == w.status.completionTime
  {}

  /** A reconcile that fails says so: phase Error, its error as the message, and the condition of the step with its
      reason. A missing reference is told from any other failure; a Job that is gone without a record is an error
      too. */
  lemma {:induction false} FailureSays(w: World, env: Env)
    requires env.patchOk && env.staleCopy.None? && env.jobSeen.None? && env.jobReseen.None?
    ensures
      var s := ReconcileStep(w, env).status;
      var starts := w.job.None? && RecordedOutcome(w.status).None?;
      && (env.jobReadFails ==> Blamed(s, ConfigResolved, ReconcileError, env))
      && (!env.jobReadFails && starts && env.references != Found ==>
            Blamed(s, ConfigResolved, if env.references == NotFound then ReferenceNotFound else ReconcileError, env))
      && (!env.jobReadFails && starts && env.references == Found && env.render != Found ==>
            Blamed(s, ConfigResolved, if env.render == NotFound then ReferenceNotFound else ReconcileError, env))
      && (!env.jobReadFails && starts && env.references == Found && env.render == Found && env.applyEnd.ApplyFailed? ==>
            Blamed(s, ConfigResolved, if env.applyEnd.notFound then ReferenceNotFound else ReconcileError, env))
      && (!env.jobReadFails && !starts && env.jobRereadFails ==> Blamed(s, WorkloadReady, ReconcileError, env))
  {
    forall s: Status, k: ConditionType, reason: Reason | k in {ConfigResolved, WorkloadReady}
      ensures Blamed(FailStatus(s, k, reason, env.errorText, env.now), k, reason, env)
    {
      AfterFail(s, k, reason, env.errorText, env.now, k);
      AfterFail(s, k, reason, env.errorText, env.now, Ready);
    }
    var n := env.applied;
    if n > |APPLY_ORDER| { AppliedAll(w, n); } else { AppliedPrefix(w, n); }
  }

  ghost predicate Blamed(s: Status, kind: ConditionType, reason: Reason, env: Env) {
    var c, r := FindStatusCondition(s.conditions, kind), FindStatusCondition(s.conditions, Ready);
    && s.phase == Error && s.message == env.errorText
    && c.Some? && c.value.status == False && c.value.reason == reason
    && r.Some? && r.value.status == False && r.value.reason == reason
  }
}
