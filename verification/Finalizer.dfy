/** Deleting a TradeBot: each reconcile moves the StatefulSet's scale-down one step, and the finalizer comes off when
    the workload is gone, fully at zero, or the grace period is over. Nothing waits inside a reconcile. */
module Finalizer {
  import opened Wrappers

  datatype StatefulSet = StatefulSet(specReplicas: Option<nat>, replicas: nat, readyReplicas: nat)

  /** The deleting TradeBot and its workload. */
  datatype World = World(
    finalizer: bool, present: bool, deletedAt: int, preserveData: bool,
    sts: Option<StatefulSet>, pvc: Option<PVC>, uid: string)

  datatype PVC = PVC(owners: seq<string>, preservedFrom: Option<string>)

  datatype Reply = Ok | NotFound | Conflict | Failed

  datatype Env = Env(
    seconds: int,                   // the clock, in seconds
    grace: nat,                     // Reconciler.FinalizerGracePeriod, 0 for unset
    stsGet: Reply,
    shown: Option<StatefulSet>,     // what the read of the StatefulSet returns; a cache may lag behind
    stsUpdate: Reply, pvcGet: Reply, pvcUpdate: Reply, betaGet: Reply, finalUpdate: Reply)

  const DEFAULT_GRACE := 120
  const RETRY_AFTER := 5

  function Grace(env: Env): nat {
    if env.grace > 0 then env.grace else DEFAULT_GRACE
  }

  predicate DeadlinePassed(w: World, env: Env) {
    env.seconds - w.deletedAt > Grace(env)
  }

  /** Scale-down has been requested and has happened. */
  predicate AtZero(s: StatefulSet) {
    s.specReplicas == Some(0) && s.replicas == 0 && s.readyReplicas == 0
  }

  /** The read of the StatefulSet: an error, or what it shows. */
  function StsRead(env: Env): Reply {
    if env.stsGet == Failed then Failed else if env.shown.None? then NotFound else Ok
  }

  /** An update from an outdated copy is answered with a conflict. */
  function StsUpdate(w: World, env: Env): Reply {
    if env.stsUpdate == Ok && env.shown != w.sts then Conflict else env.stsUpdate
  }

  datatype Result = Finished | Requeued | Errored | Gone

  datatype Step = Step(w: World, result: Result)

  function WithoutOwner(owners: seq<string>, uid: string): seq<string> {
    if owners == [] then []
    else
      WithoutOwner(owners[..|owners| - 1], uid) + (if owners[|owners| - 1] == uid then [] else [owners[|owners| - 1]])
  }

  lemma {:induction false} WithoutOwnerExactly(owners: seq<string>, uid: string, o: string)
    ensures o in WithoutOwner(owners, uid) <==> o in owners && o != uid
  {
    if owners != [] {
      var n := |owners| - 1;
      WithoutOwnerExactly(owners[..n], uid, o);
      assert owners == owners[..n] + [owners[n]];
    }
  }

  /** handlePVCPreservation; its errors are logged and dropped by the caller. */
  function Preserve(w: World, name: string, env: Env): World {
    if !w.preserveData || env.pvcGet != Ok || w.pvc.None? || env.pvcUpdate != Ok then w
    else w.(pvc := Some(PVC(WithoutOwner(w.pvc.value.owners, w.uid), Some(name))))
  }

  /** Re-fetching the TradeBot as v1beta1, taking the finalizer off and writing it back. */
  function RemoveFinalizer(w: World, env: Env): Step {
    if env.betaGet == NotFound || !w.present then Step(w, Gone)
    else if env.betaGet != Ok || env.finalUpdate != Ok then Step(w, Errored)
    else Step(w.(finalizer := false, present := false), Finished)
  }

  function Conclude(w: World, name: string, env: Env): Step {
    RemoveFinalizer(Preserve(w, name, env), env)
  }

  /** One reconcile of a deleting TradeBot that still has the finalizer. */
  function Reconcile(w: World, name: string, env: Env): Step {
    match StsRead(env)
    case NotFound => Conclude(w, name, env)
    case Ok =>
      var s := env.shown.value;
      if s.specReplicas != Some(0) then
        if StsUpdate(w, env) in {Ok, Conflict} then
          var w1 := if StsUpdate(w, env) == Ok then w.(sts := Some(s.(specReplicas := Some(0)))) else w;
          if DeadlinePassed(w, env) then Conclude(w1, name, env) else Step(w1, Requeued)
        else Step(w, Errored)
      else if AtZero(s) || DeadlinePassed(w, env) then Conclude(w, name, env)
      else Step(w, Requeued)
    case _ => Step(w, Errored)
  }

  // ---------- When the finalizer comes off ----------

  /** As far as the read shows, the workload cannot be trading any more, or has had its time. */
  predicate MayGo(w: World, env: Env) {
    env.shown.None? || AtZero(env.shown.value) || DeadlinePassed(w, env)
  }

  /** The replies under which every step of this reconcile goes through; a conflict is tolerated on the scale-down
      only, not on the finalizer update. */
  predicate Replies(w: World, env: Env) {
    && env.stsGet != Failed
    && (env.shown.Some? && env.shown.value.specReplicas != Some(0) ==> StsUpdate(w, env) in {Ok, Conflict})
    && env.betaGet == Ok && env.finalUpdate == Ok
  }

  /** One reconcile removes the finalizer exactly when it may and the API lets it. */
  lemma RemovedExactly(w: World, name: string, env: Env)
    requires w.finalizer && w.present
    ensures !Reconcile(w, name, env).w.finalizer <==> MayGo(w, env) && Replies(w, env)
    ensures Reconcile(w, name, env).result == Finished <==> MayGo(w, env) && Replies(w, env)
  {}

  /** With a current read, the finalizer only ever comes off a bot whose workload is gone, is at zero, or has had its
      grace period. */
  lemma RemovedOnlyWhenSafe(w: World, name: string, env: Env)
    requires w.finalizer && w.present && env.shown == w.sts
    requires !Reconcile(w, name, env).w.finalizer
    ensures w.sts.None? || AtZero(w.sts.value) || env.seconds - w.deletedAt > Grace(env)
  {}

  /** Exactly a lagging read can take it off a bot that is still up inside the grace period. */
  lemma RemovedWhileUpExactly(w: World, name: string, env: Env)
    requires w.finalizer && w.present && Replies(w, env)
    requires w.sts.Some? && !AtZero(w.sts.value) && !DeadlinePassed(w, env)
    ensures !Reconcile(w, name, env).w.finalizer <==> env.shown.None? || AtZero(env.shown.value)
  {}

  /** Once the grace period is over, API errors are the only thing that can hold a reconcile back: endless conflicts on
      the StatefulSet cannot. */
  lemma LateReconcileFinishes(w: World, name: string, env: Env)
    requires w.finalizer && w.present && DeadlinePassed(w, env)
    requires env.stsGet != Failed && env.stsUpdate in {Ok, Conflict} && env.betaGet == Ok && env.finalUpdate == Ok
    ensures Reconcile(w, name, env).result == Finished
  {}

  /** A conflict on the final update fails that reconcile even then; the next one tries again. */
  lemma FinalConflictIsNotTolerated(w: World, name: string, env: Env)
    requires w.finalizer && w.present && env.finalUpdate == Conflict
    ensures Reconcile(w, name, env).w.finalizer && Reconcile(w, name, env).result != Finished
  {}

  /** Preservation happens as asked exactly when the PVC is there and both calls on it succeed; otherwise the finalizer
      still comes off and the PVC keeps its owner, so it is garbage collected. */
  lemma PreservedExactly(w: World, name: string, env: Env)
    requires w.finalizer && w.present && w.preserveData && w.pvc.Some? && w.uid in w.pvc.value.owners
    requires MayGo(w, env) && Replies(w, env)
    ensures var w' := Reconcile(w, name, env).w;
            && !w'.finalizer && w'.pvc.Some?
            && (w.uid !in w'.pvc.value.owners <==> env.pvcGet == Ok && env.pvcUpdate == Ok)
            && (forall o :: o in w'.pvc.value.owners && o != w.uid <==> o in w.pvc.value.owners && o != w.uid)
            && w'.pvc.value.preservedFrom
               == (if env.pvcGet == Ok && env.pvcUpdate == Ok then Some(name) else w.pvc.value.preservedFrom)
  {
    forall o { WithoutOwnerExactly(w.pvc.value.owners, w.uid, o); }
  }

  /** The PVC is left alone without the annotation that asks to preserve it, and by every reconcile that is sent away or
      fails before the workload may go. */
  lemma PVCIsLeftAlone(w: World, name: string, env: Env)
    requires w.finalizer && w.present && (!w.preserveData || !MayGo(w, env))
    ensures Reconcile(w, name, env).w.pvc == w.pvc
  {}

  /** The one thing a reconcile does to the StatefulSet: it asks for zero replicas exactly when it was shown one that
      does not yet, still is as shown, and takes the update. */
  lemma ScaleDownExactly(w: World, name: string, env: Env)
    requires w.finalizer && w.present
    ensures
      var sts, asks := Reconcile(w, name, env).w.sts,
                       env.stsGet != Failed && env.shown.Some? && env.shown.value.specReplicas != Some(0);
      if asks && env.shown == w.sts && env.stsUpdate == Ok then
        sts == Some(StatefulSet(Some(0), w.sts.value.replicas, w.sts.value.readyReplicas))
      else sts == w.sts
  {}

  /** How a reconcile ends: sent away for another look exactly when the StatefulSet could be read, took the scale-down
      or conflicted on it, and may not go yet; and over exactly when it may go and either the finalizer comes off or the
      TradeBot turns out to be gone already. A grace period that is not set is two minutes. */
  lemma EndsExactly(w: World, name: string, env: Env)
    requires w.finalizer && w.present
    ensures
      var r, s := Reconcile(w, name, env).result, env.shown;
      var late := env.seconds - w.deletedAt > if env.grace == 0 then 120 else env.grace;
      var mayGo := s.None? || late
                   || (s.value.specReplicas == Some(0) && s.value.replicas == 0 && s.value.readyReplicas == 0);
      var asked := s.None? || s.value.specReplicas == Some(0) || env.stsUpdate in {Ok, Conflict};
      && (r == Requeued <==> env.stsGet != Failed && asked && !mayGo)
      && (r == Gone <==> env.stsGet != Failed && asked && mayGo && env.betaGet == NotFound)
      && (r == Finished <==> env.stsGet != Failed && asked && mayGo && env.betaGet == Ok && env.finalUpdate == Ok)
  {}

  // ---------- Runs ----------

  datatype Event =
    | Reconciled(env: Env)
    | PodsMoved(replicas: nat, readyReplicas: nat)      // the StatefulSet controller working towards spec.replicas
    | StsDeleted

  function Next(w: World, name: string, e: Event): World {
    match e
    case Reconciled(env) => if w.finalizer && w.present then Reconcile(w, name, env).w else w
    case PodsMoved(r, ready) =>
      if w.sts.None? then w else w.(sts := Some(w.sts.value.(replicas := r, readyReplicas := ready)))
    case StsDeleted => w.(sts := None)
  }

  function Run(w: World, name: string, events: seq<Event>): World {
    if events == [] then w else Next(Run(w, name, events[..|events| - 1]), name, events[|events| - 1])
  }

  /** Over any run, with any interference on the StatefulSet, lagging reads, conflicts and errors: the finalizer is off
      at the end exactly when at some moment, with the finalizer still on, a reconcile came that found the workload
      gone, at zero or out of time and got a good answer to every call it needed. */
  lemma {:induction false} RemovedOverRunExactly(w: World, name: string, events: seq<Event>)
    requires w.finalizer && w.present
    ensures !Run(w, name, events).finalizer <==> exists i :: 0 <= i < |events| && Removes(w, name, events, i)
  {
    if events != [] {
      var n := |events| - 1;
      var before := Run(w, name, events[..n]);
      RemovedOverRunExactly(w, name, events[..n]);
      assert forall i :: 0 <= i < n ==> events[..n][..i] == events[..i] && events[..n][i] == events[i];
      if before.finalizer {
        StillPresent(w, name, events[..n]);
        if events[n].Reconciled? { RemovedExactly(before, name, events[n].env); }
        assert !Run(w, name, events).finalizer <==> Removes(w, name, events, n);
        if i :| 0 <= i < n && Removes(w, name, events, i) { assert Removes(w, name, events[..n], i); }
      } else {
        var i :| 0 <= i < n && Removes(w, name, events[..n], i);
        assert Removes(w, name, events, i);
      }
    }
  }

  /** So a deletion whose reads of the StatefulSet are current takes the finalizer off only when the workload really is
      gone, at zero, or has had its grace period. */
  lemma {:induction false} CurrentReadsRemoveSafely(w: World, name: string, events: seq<Event>)
    requires w.finalizer && w.present && !Run(w, name, events).finalizer
    requires forall i :: 0 <= i < |events| && events[i].Reconciled? ==>
                           events[i].env.shown == Run(w, name, events[..i]).sts
    ensures exists i :: 0 <= i < |events| && Removes(w, name, events, i)
                        && ReallyMayGo(Run(w, name, events[..i]), events[i].env)
  {
    RemovedOverRunExactly(w, name, events);
    var i :| 0 <= i < |events| && Removes(w, name, events, i);
    assert ReallyMayGo(Run(w, name, events[..i]), events[i].env);
  }

  predicate ReallyMayGo(w: World, env: Env) {
    w.sts.None? || AtZero(w.sts.value) || DeadlinePassed(w, env)
  }

  /** And any run with a reconcile after the grace period that meets no error, endless conflicts on the scale-down
      notwithstanding, ends without the finalizer. */
  lemma {:induction false} LateReconcileEnds(w: World, name: string, events: seq<Event>, i: nat)
    requires w.finalizer && w.present && i < |events| && events[i].Reconciled?
    requires var env := events[i].env;
             && env.seconds - w.deletedAt > Grace(env)
             && env.stsGet != Failed && env.stsUpdate in {Ok, Conflict} && env.betaGet == Ok && env.finalUpdate == Ok
    ensures !Run(w, name, events).finalizer
  {
    var before := Run(w, name, events[..i]);
    DeadlineKept(w, name, events[..i]);
    if before.finalizer {
      assert Removes(w, name, events, i);
    } else {
      RemovedOverRunExactly(w, name, events[..i]);
      var k :| 0 <= k < i && Removes(w, name, events[..i], k);
      assert events[..i][..k] == events[..k];
      assert Removes(w, name, events, k);
    }
    RemovedOverRunExactly(w, name, events);
  }

  lemma {:induction false} DeadlineKept(w: World, name: string, events: seq<Event>)
    ensures Run(w, name, events).deletedAt == w.deletedAt
  {
    if events != [] { DeadlineKept(w, name, events[..|events| - 1]); }
  }

  /** The i-th event is a reconcile that finds the finalizer on, may take it off, and gets good answers. */
  predicate Removes(w: World, name: string, events: seq<Event>, i: nat)
    requires i < |events|
  {
    var before := Run(w, name, events[..i]);
    && events[i].Reconciled? && before.finalizer
    && MayGo(before, events[i].env) && Replies(before, events[i].env)
  }

  lemma {:induction false} StillPresent(w: World, name: string, events: seq<Event>)
    requires w.finalizer && w.present && Run(w, name, events).finalizer
    ensures Run(w, name, events).present
  {
    if events != [] {
      var before := Run(w, name, events[..|events| - 1]);
      if before.finalizer { StillPresent(w, name, events[..|events| - 1]); }
    }
  }

  /** What the StatefulSet is asked to run; none counts as the default of one. */
  function Wanted(s: Option<StatefulSet>): nat {
    if s.None? then 0 else if s.value.specReplicas.None? then 1 else s.value.specReplicas.value
  }

  /** Over any run of a deletion the operator never raises the replicas it asks for. */
  lemma {:induction false} ReplicasNeverRaised(w: World, name: string, events: seq<Event>)
    ensures Wanted(Run(w, name, events).sts) <= Wanted(w.sts)
  {
    if events != [] { ReplicasNeverRaised(w, name, events[..|events| - 1]); }
  }

  /** Reconciles one after another, each at least RETRY_AFTER seconds after the one before, the first not before the
      deletion; what happens in between may change the StatefulSet at will. */
  predicate Spaced(deletedAt: int, envs: seq<Env>) {
    forall i :: 0 <= i < |envs| ==>
      envs[i].seconds >= deletedAt + i * RETRY_AFTER && Grace(envs[i]) == Grace(envs[0])
  }

  /** The retry bound: with any interference on the StatefulSet and endless conflicts on scaling it down, but no other
      error, at most floor(grace / 5) + 1 reconciles can be sent away; the next one finishes. */
  lemma RetriesAreBounded(deletedAt: int, name: string, before: seq<World>, envs: seq<Env>)
    requires |before| == |envs| > 0 && Spaced(deletedAt, envs)
    requires forall i :: 0 <= i < |envs| ==>
      before[i].finalizer && before[i].present && before[i].deletedAt == deletedAt
    requires forall i :: 0 <= i < |envs| ==> Reconcile(before[i], name, envs[i]).result == Requeued
    ensures |envs| <= Grace(envs[0]) / RETRY_AFTER + 1
  {
    var n := |envs| - 1;
    assert Reconcile(before[n], name, envs[n]).result == Requeued;
    assert !DeadlinePassed(before[n], envs[n]);
    assert n * RETRY_AFTER <= envs[n].seconds - deletedAt <= Grace(envs[0]);
  }

  /** And the bound is reached: a StatefulSet that conflicts every time is retried exactly that often. */
  lemma {:induction false} RetriesReachTheBound(w: World, name: string, env: Env, i: nat)
    requires w.finalizer && w.present && env.shown.Some? && env.shown.value.specReplicas != Some(0)
    requires env.stsGet == Ok && env.stsUpdate == Conflict && i <= Grace(env) / RETRY_AFTER
    ensures Reconcile(w, name, env.(seconds := w.deletedAt + i * RETRY_AFTER)) == Step(w, Requeued)
  {
    assert i * RETRY_AFTER <= Grace(env);
  }

  // ---------- The reconciler as it runs ----------

  class Deletion {
    const name: string
    const uid: string
    const deletedAt: int
    const preserveData: bool
    var finalizer: bool
    var present: bool
    var sts: Option<StatefulSet>
    var pvc: Option<PVC>

    ghost function View(): World reads this {
      World(finalizer, present, deletedAt, preserveData, sts, pvc, uid)
    }

    constructor (name: string, w: World)
      ensures this.name == name && View() == w
    {
      this.name, uid, deletedAt, preserveData := name, w.uid, w.deletedAt, w.preserveData;
      finalizer, present, sts, pvc := w.finalizer, w.present, w.sts, w.pvc;
    }

    /** ensureStatefulSetScaledDown: a request just issued has not taken effect yet, so it reports false. */
    method EnsureStatefulSetScaledDown(env: Env) returns (down: bool, ok: bool)
      requires env.shown.Some?
      modifies this`sts
      ensures ok <==> env.shown.value.specReplicas == Some(0) || StsUpdate(old(View()), env) in {Ok, Conflict}
      ensures down <==> AtZero(env.shown.value)
      ensures sts == if env.shown.value.specReplicas != Some(0) && StsUpdate(old(View()), env) == Ok
                     then Some(old(sts).value.(specReplicas := Some(0))) else old(sts)
    {
      var s := env.shown.value;
      if s.specReplicas.None? || s.specReplicas.value != 0 {
        var reply := StsUpdate(World(finalizer, present, deletedAt, preserveData, sts, pvc, uid), env);
        if reply == Ok { sts := Some(s.(specReplicas := Some(0))); }
        return false, reply == Ok || reply == Conflict;
      }
      return s.replicas == 0 && s.readyReplicas == 0, true;
    }

    method HandlePVCPreservation(env: Env) returns (ok: bool)
      modifies this`pvc
      ensures View() == Preserve(old(View()), name, env)
      ensures !ok ==> View() == old(View())
    {
      if !preserveData { return true; }
      if env.pvcGet != Ok || pvc.None? { return env.pvcGet == NotFound || env.pvcGet == Ok; }
      var owners: seq<string> := [];
      var i := 0;
      while i < |pvc.value.owners|
        invariant i <= |pvc.value.owners| && pvc == old(pvc)
        invariant owners == WithoutOwner(pvc.value.owners[..i], uid)
      {
        assert pvc.value.owners[..i + 1][..i] == pvc.value.owners[..i];
        if pvc.value.owners[i] != uid { owners := owners + [pvc.value.owners[i]]; }
        i := i + 1;
      }
      assert pvc.value.owners[..|pvc.value.owners|] == pvc.value.owners;
      if env.pvcUpdate != Ok { return false; }
      pvc := Some(PVC(owners, Some(name)));
      ok := true;
    }

    /** finalizeTradeBot. */
    method FinalizeTradeBot(env: Env) returns (done: bool, ok: bool)
      modifies this`sts, this`pvc
      ensures done ==> ok && MayGo(old(View()), env)
      ensures !ok ==> View() == old(View()) && Reconcile(old(View()), name, env) == Step(old(View()), Errored)
      ensures ok && !done ==> Reconcile(old(View()), name, env) == Step(View(), Requeued)
      ensures done ==> Reconcile(old(View()), name, env) == RemoveFinalizer(View(), env)
    {
      if env.stsGet == Failed { return false, false; }
      if env.shown.Some? {
        var down, updated := EnsureStatefulSetScaledDown(env);
        if !updated { return false, false; }
        if !down && !(env.seconds - deletedAt > Grace(env)) { return false, true; }
      }
      var preserved := HandlePVCPreservation(env);           // an error is logged, nothing more
      return true, true;
    }

    /** The deletion branch of Reconcile. */
    method ReconcileDeletion(env: Env) returns (result: Result)
      requires finalizer && present
      modifies this
      ensures Step(View(), result) == Reconcile(old(View()), name, env)
    {
      var done, ok := FinalizeTradeBot(env);
      if !ok { return Errored; }
      if !done { return Requeued; }
      if env.betaGet == NotFound { return Gone; }
      if env.betaGet != Ok { return Errored; }
      if env.finalUpdate != Ok { return Errored; }
      finalizer, present := false, false;
      result := Finished;
    }
  }
}
