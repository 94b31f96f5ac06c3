/** The Backtest controller as it runs: a straight sequence of reads, applies and one status patch against a cluster it
    changes step by step, shown to be Backtest's step function. */
module BacktestReconciler {
  import opened Wrappers
  import opened Conditions
  import opened Backtest

  datatype Done = Continue | Return

  class Cluster {
    const name: string
    const uid: string
    var job: Option<Job>
    var children: set<Child>
    var resultsMap: Option<ResultsMap>
    var status: Status
    var applies: nat

    ghost function View(): World reads this {
      World(name, uid, job, children, resultsMap, status, applies)
    }

    constructor (name: string, uid: string)
      ensures View() == New(name, uid)
    {
      this.name, this.uid := name, uid;
      job, children, resultsMap, status, applies := None, {}, None, EMPTY_STATUS, 0;
    }

    method FailReconcile(kind: ConditionType, reason: Reason, env: Env)
      modifies this`status
      ensures View() == Fail(old(View()), kind, reason, env)
    {
      if env.patchOk {
        var conditions := SetStatusCondition(status.conditions, Make(kind, False, reason, env.errorText), env.now);
        conditions := SetStatusCondition(conditions, Make(Ready, False, reason, env.errorText), env.now);
        status := status.(conditions := conditions, phase := Error, message := env.errorText);
      }
    }

    /** reconcileResources: the applies in order, stopping where env says one fails or the operator crashes. */
    method ReconcileResources(copy: Status, env: Env) returns (done: Done)
      requires copy == Copy(View(), env)
      modifies this`job, this`children, this`applies, this`status
      ensures var stage := Resources(old(View()), env);
              View() == stage.w && (done == Continue <==> stage.Proceed?)
    {
      if env.jobReadFails {
        FailReconcile(ConfigResolved, ReconcileError, env);
        return Return;
      }
      var seen := if env.jobSeen.Some? then env.jobSeen.value else job;
      if seen.Some? { return Continue; }
      if RecordedOutcome(copy).Some? { return Continue; }
      if env.references != Found {
        FailReconcile(ConfigResolved, if env.references == NotFound then ReferenceNotFound else ReconcileError, env);
        return Return;
      }
      if env.render != Found {
        FailReconcile(ConfigResolved, if env.render == NotFound then ReferenceNotFound else ReconcileError, env);
        return Return;
      }
      var budget := if env.applyEnd.AllApplied? then |APPLY_ORDER| + 1 else env.applied;
      ApplyInOrder(budget);
      applies := applies + Issued(env);
      match env.applyEnd
      case AllApplied => done := Continue;
      case ApplyFailed(notFound) =>
        FailReconcile(ConfigResolved, if notFound then ReferenceNotFound else ReconcileError, env);
        done := Return;
      case Crashed => done := Return;
    }

    /** The applies one after another, until budget of them took effect. */
    method ApplyInOrder(budget: nat)
      modifies this`job, this`children
      ensures View() == Applied(old(View()), budget)
    {
      var i := 0;
      while i < |APPLY_ORDER| && i < budget
        invariant i <= |APPLY_ORDER| && i <= budget
        invariant View() == Applied(old(View()), i)
      {
        children := children + {APPLY_ORDER[i]};
        i := i + 1;
      }
      if budget > |APPLY_ORDER| {
        AppliedPrefix(old(View()), |APPLY_ORDER|);
        if job.None? { job := Some(Job(0, 0, 0, None, None)); }
      }
    }

    /** computeWorkloadStatus: the Job if it is there, the recorded outcome if it was reaped, an error otherwise. */
    method ComputeWorkloadStatus(copy: Status, env: Env) returns (w: Option<Workload>)
      ensures w == ReadWorkload(View(), copy, env)
    {
      if env.jobRereadFails { return None; }
      var seen := if env.jobReseen.Some? then env.jobReseen.value else job;
      if seen.None? {
        w := RecordedOutcome(copy);
        return;
      }
      var j := seen.value;
      var ws := Workload(false, false, false, "", 0, j.startTime, j.completionTime);
      if j.succeeded > 0 {
        ws := ws.(succeeded := true);
      } else if j.failed > 0 {
        ws := ws.(failed := true, message := "Job failed; check pod logs");
      } else if j.active > 0 {
        ws := ws.(running := true, message := "Job is running", requeueAfter := 15);
      } else {
        ws := ws.(message := "Waiting for Job to start", requeueAfter := 15);
      }
      w := Some(ws);
    }

    /** ensureOwned: appends this Backtest as controller owner unless it already is an owner. */
    method EnsureOwned(fails: bool) returns (ok: bool)
      requires resultsMap.Some?
      modifies this`resultsMap
      ensures var adopted := Adopt(old(resultsMap).value, uid, fails);
              ok == adopted.Some? && resultsMap == (if ok then adopted else old(resultsMap))
      ensures var owners := old(resultsMap).value.owners;
              && (ok <==> (exists o :: o in owners && o.uid == uid)
                          || (!fails && forall o :: o in owners && o.controller ==> o.uid == uid))
              && (ok ==> resultsMap.value.owners ==
                           if exists o :: o in owners && o.uid == uid then owners else owners + [Owner(uid, true)])
    {
      var m := resultsMap.value;
      var i := 0;
      while i < |m.owners|
        invariant i <= |m.owners|
        invariant forall k :: 0 <= k < i ==> m.owners[k].uid != uid
      {
        if m.owners[i].uid == uid {
          assert m.owners[i] in m.owners;
          return true;
        }
        i := i + 1;
      }
      var taken := exists o :: o in m.owners && o.controller && o.uid != uid;
      if taken || fails { return false; }
      resultsMap := Some(m.(owners := m.owners + [Owner(uid, true)]));
      ok := true;
    }

    method PatchReport(workload: Workload, h: Harvest, env: Env)
      modifies this`status
      ensures View() == if env.patchOk then old(View()).(status := Report(old(status), name, workload, h, env.now))
                        else old(View())
    {
      if !env.patchOk { return; }
      var (st, reason) := ConditionStatusAndReason(workload);
      var cs := SetStatusCondition(status.conditions, Make(ConfigResolved, True, AsExpected, ""), env.now);
      cs := SetStatusCondition(cs, Make(WorkloadReady, st, reason, workload.message), env.now);
      cs := SetStatusCondition(cs, Make(Ready, st, reason, workload.message), env.now);
      if h.condition.Some? { cs := SetStatusCondition(cs, h.condition.value, env.now); }
      if h.results.Some? { status := status.(results := h.results); }
      if workload.startTime.Some? { status := status.(startTime := workload.startTime); }
      if workload.completionTime.Some? { status := status.(completionTime := workload.completionTime); }
      status := status.(conditions := cs, jobName := name, resultsPVCName := name + "-results",
                        phase := DerivePhase(workload), message := workload.message);
    }

    /** Everything after the workload was read: adopt and parse the results if they are still missing, then report. */
    method Conclude(copy: Status, workload: Workload, env: Env)
      modifies this`status, this`resultsMap
      ensures View() == Finish(old(View()), copy, workload, env)
    {
      var h := Harvest(None, None);
      if workload.succeeded && copy.results.None? {
        if env.resultsReadFails {
          FailReconcile(ResultsAvailable, ReconcileError, env);
          return;
        }
        if resultsMap.Some? {
          var ok := EnsureOwned(env.adoptFails);
          if !ok {
            FailReconcile(ResultsAvailable, ReconcileError, env);
            return;
          }
          h := Parse(resultsMap.value, env.generation);
        }
      }
      PatchReport(workload, h, env);
    }

    method Reconcile(env: Env)
      modifies this
      ensures View() == ReconcileStep(old(View()), env)
    {
      var copy := if env.staleCopy.Some? then env.staleCopy.value else status;
      var done := ReconcileResources(copy, env);
      if done == Return { return; }
      if CanBecome(job, env.jobLater) { job := env.jobLater; }
      var workload := ComputeWorkloadStatus(copy, env);
      if workload.None? {
        FailReconcile(WorkloadReady, ReconcileError, env);
        return;
      }
      Conclude(copy, workload.value, env);
    }
  }
}
