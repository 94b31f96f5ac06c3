/** The FreqUI's stored status: what its reconciler reports about workload and exposure, and what every stored status
    satisfies in every interleaving of its patches. */
module FreqUIStatus {
  import opened Wrappers
  import opened Conditions
  import opened PatchStatus

  datatype Phase = Unset | Initializing | Running | Degraded | Pending | ResourceError

  datatype Status = Status(phase: Phase, message: string, url: string, conditions: seq<Condition>)

  const EMPTY_STATUS := Status(Unset, "", "", [])

  /** The exposure part of a report: reconcileExposure either fails the reconcile or has a verdict. */
  datatype Exposure = Exposure(ready: bool, reason: Reason, message: string)

  datatype Mutate =
    | Reported(ready: bool, message: string, unresolved: seq<string>, exposure: Exposure, url: string, now: int)
    | ReconcileFailed(message: string, now: int)

  function DerivePhase(conditions: seq<Condition>): Phase {
    var workload := FindStatusCondition(conditions, WorkloadReady);
    if workload.None? then Initializing
    else if workload.value.reason == WorkloadHealthy then
      if IsStatusConditionFalse(conditions, ExposureReady) then Degraded else Running
    else if workload.value.reason == ReconcileError then ResourceError
    else Pending
  }

  function AggregateReady(conditions: seq<Condition>, message: string): Condition {
    var workload := FindStatusCondition(conditions, WorkloadReady);
    var exposure := FindStatusCondition(conditions, ExposureReady);
    if IsStatusConditionTrue(conditions, WorkloadReady) && IsStatusConditionTrue(conditions, ExposureReady) then
      Make(Ready, True, AsExpected, message)
    else if !IsStatusConditionTrue(conditions, WorkloadReady) then
      Make(Ready, False, if workload.Some? then workload.value.reason else WorkloadProgressing, message)
    else
      Make(Ready, False, if exposure.Some? then exposure.value.reason else WorkloadProgressing, message)
  }

  function RefsCondition(unresolved: seq<string>): Condition {
    if unresolved == [] then Make(TradeBotRefsResolved, True, AsExpected, "")
    else Make(TradeBotRefsResolved, False, UnresolvableTradeBotRefs, Join(unresolved))
  }

  function Join(names: seq<string>): string {
    if names == [] then ""
    else if |names| == 1 then names[0]
    else names[0] + ", " + Join(names[1..])
  }

  function WorkloadCondition(ready: bool, message: string): Condition {
    Make(WorkloadReady, if ready then True else False, if ready then WorkloadHealthy else WorkloadProgressing, message)
  }

  /** The conditions of a report before Ready is folded from them. */
  function Observations(cs: seq<Condition>, m: Mutate): seq<Condition>
    requires m.Reported?
  {
    var cs := SetStatusCondition(cs, WorkloadCondition(m.ready, m.message), m.now);
    var cs := SetStatusCondition(cs, RefsCondition(m.unresolved), m.now);
    SetStatusCondition(cs, Make(ExposureReady, if m.exposure.ready then True else False, m.exposure.reason,
                                m.exposure.message), m.now)
  }

  function Apply(s: Status, m: Mutate): Status {
    match m
    case Reported(ready, message, _, _, url, now) =>
      var seen := Observations(s.conditions, m);
      var cs := SetStatusCondition(seen, AggregateReady(seen, message), now);
      Status(DerivePhase(cs), message, if ready then url else "", cs)
    case ReconcileFailed(message, now) =>
      var cs := SetStatusCondition(s.conditions, Make(WorkloadReady, False, ReconcileError, message), now);
      var cs := SetStatusCondition(cs, Make(Ready, False, ReconcileError, message), now);
      s.(phase := DerivePhase(cs), message := message, conditions := cs)
  }

  // ---------- What every stored status satisfies ----------

  /** What the entry of a type says, without its transition time. */
  ghost predicate Says(cs: seq<Condition>, kind: ConditionType, status: ConditionStatus, reason: Reason) {
    var c := FindStatusCondition(cs, kind);
    c.Some? && c.value.status == status && c.value.reason == reason
  }

  /** Ready, Phase and their reasons tell one story, and the URL is not published while the workload is coming up. */
  ghost predicate Honest(s: Status) {
    var cs := s.conditions;
    match s.phase
    case Unset => s == EMPTY_STATUS
    case Initializing => false
    case Running => Says(cs, Ready, True, AsExpected) && Says(cs, WorkloadReady, True, WorkloadHealthy)
                    && IsStatusConditionTrue(cs, ExposureReady)
    case Degraded => Says(cs, WorkloadReady, True, WorkloadHealthy) && IsStatusConditionFalse(cs, ExposureReady)
                     && Says(cs, Ready, False, FindStatusCondition(cs, ExposureReady).value.reason)
    case Pending => Says(cs, WorkloadReady, False, WorkloadProgressing) && Says(cs, Ready, False, WorkloadProgressing)
                    && s.url == ""
    case ResourceError => Says(cs, WorkloadReady, False, ReconcileError) && Says(cs, Ready, False, ReconcileError)
  }

  lemma ObservationsFound(cs: seq<Condition>, m: Mutate)
    requires m.Reported?
    ensures var seen := Observations(cs, m);
            && Says(seen, WorkloadReady, if m.ready then True else False,
                    if m.ready then WorkloadHealthy else WorkloadProgressing)
            && Says(seen, ExposureReady, if m.exposure.ready then True else False, m.exposure.reason)
  {
    var cs1 := SetStatusCondition(cs, WorkloadCondition(m.ready, m.message), m.now);
    var cs2 := SetStatusCondition(cs1, RefsCondition(m.unresolved), m.now);
    var e := Make(ExposureReady, if m.exposure.ready then True else False, m.exposure.reason, m.exposure.message);
    FindAfterSet(cs, WorkloadCondition(m.ready, m.message), m.now, WorkloadReady);
    FindAfterSet(cs1, RefsCondition(m.unresolved), m.now, WorkloadReady);
    FindAfterSet(cs2, e, m.now, WorkloadReady);
    FindAfterSet(cs2, e, m.now, ExposureReady);
  }

  lemma {:induction false} AggregateStored(cs: seq<Condition>, c: Condition, now: int)
    requires c.kind == Ready
    ensures var t := SetStatusCondition(cs, c, now);
            && Says(t, Ready, c.status, c.reason)
            && FindStatusCondition(t, WorkloadReady) == FindStatusCondition(cs, WorkloadReady)
            && FindStatusCondition(t, ExposureReady) == FindStatusCondition(cs, ExposureReady)
  {
    FindAfterSet(cs, c, now, Ready);
    FindAfterSet(cs, c, now, WorkloadReady);
    FindAfterSet(cs, c, now, ExposureReady);
  }

  lemma ReportIsHonest(s: Status, m: Mutate)
    requires m.Reported?
    ensures Honest(Apply(s, m)) && Apply(s, m).phase != Unset
  {
    ObservationsFound(s.conditions, m);
    var seen := Observations(s.conditions, m);
    AggregateStored(seen, AggregateReady(seen, m.message), m.now);
  }

  lemma FailureIsHonest(s: Status, message: string, now: int)
    ensures Honest(Apply(s, ReconcileFailed(message, now))) && Apply(s, ReconcileFailed(message, now)).phase != Unset
  {
    var w := Make(WorkloadReady, False, ReconcileError, message);
    FindAfterSet(s.conditions, w, now, WorkloadReady);
    AggregateStored(SetStatusCondition(s.conditions, w, now), Make(Ready, False, ReconcileError, message), now);
  }

  /** Every write leaves an honest status, whatever was stored before. */
  lemma EveryWriteIsHonest(s: Status, m: Mutate)
    ensures Honest(Apply(s, m)) && Apply(s, m).phase != Unset
  {
    match m
    case Reported(_, _, _, _, _, _) => ReportIsHonest(s, m);
    case ReconcileFailed(message, now) => FailureIsHonest(s, message, now);
  }

  lemma HonestReady(s: Status)
    requires Honest(s)
    ensures IsStatusConditionTrue(s.conditions, Ready) <==> s.phase == Running
    ensures IsStatusConditionTrue(s.conditions, Ready)
       <==> IsStatusConditionTrue(s.conditions, WorkloadReady) && IsStatusConditionTrue(s.conditions, ExposureReady)
  {}

  /** In every interleaving of this operator's patches and spec edits, the stored status is honest: Ready is True
      exactly when Phase is Running, exactly when workload and exposure both are, and "Initializing" is never stored. */
  lemma {:induction false} StoredStatusIsHonest(first: Object<Status>, events: seq<Event<Mutate>>)
    requires first.status == EMPTY_STATUS
    ensures var s := Latest(Run(Apply, first, events)).status;
            && Honest(s)
            && (IsStatusConditionTrue(s.conditions, Ready) <==> s.phase == Running)
            && (IsStatusConditionTrue(s.conditions, Ready) <==>
                && IsStatusConditionTrue(s.conditions, WorkloadReady)
                && IsStatusConditionTrue(s.conditions, ExposureReady))
  {
    NoLostUpdate(Apply, first, events);
    var ms := Mutates(Run(Apply, first, events).log);
    if ms != [] { EveryWriteIsHonest(Fold(Apply, EMPTY_STATUS, ms[..|ms| - 1]), ms[|ms| - 1]); }
    HonestReady(Latest(Run(Apply, first, events)).status);
  }

  /** What a report says, from what was observed: the phase, when the URL is published, each condition's status and
      reason, and the unresolvable references by name. */
  lemma ReportSaysExactly(s: Status, m: Mutate)
    requires m.Reported?
    ensures
      var t := Apply(s, m);
      var cs := t.conditions;
      && (t.phase == Running <==> m.ready && m.exposure.ready)
      && (t.phase == Degraded <==> m.ready && !m.exposure.ready)
      && (t.phase == Pending <==> !m.ready)
      && t.message == m.message && t.url == (if m.ready then m.url else "")
      && Says(cs, WorkloadReady, if m.ready then True else False,
              if m.ready then WorkloadHealthy else WorkloadProgressing)
      && Says(cs, ExposureReady, if m.exposure.ready then True else False, m.exposure.reason)
      && Says(cs, TradeBotRefsResolved, if m.unresolved == [] then True else False,
              if m.unresolved == [] then AsExpected else UnresolvableTradeBotRefs)
      && (|m.unresolved| == 1 ==>
            FindStatusCondition(cs, TradeBotRefsResolved).value.message == m.unresolved[0])
      && (IsStatusConditionTrue(cs, Ready) <==> m.ready && m.exposure.ready)
  {
    ReportIsHonest(s, m);
    ObservationsFound(s.conditions, m);
    var seen := Observations(s.conditions, m);
    AggregateStored(seen, AggregateReady(seen, m.message), m.now);
    RefsFound(s.conditions, m);
    FindAfterSet(seen, AggregateReady(seen, m.message), m.now, TradeBotRefsResolved);
  }

  lemma RefsFound(cs: seq<Condition>, m: Mutate)
    requires m.Reported?
    ensures
      var c := FindStatusCondition(Observations(cs, m), TradeBotRefsResolved);
      c.Some? && c.value.(lastTransition := 0) == RefsCondition(m.unresolved)
  {
    var cs1 := SetStatusCondition(cs, WorkloadCondition(m.ready, m.message), m.now);
    var cs2 := SetStatusCondition(cs1, RefsCondition(m.unresolved), m.now);
    var e := Make(ExposureReady, if m.exposure.ready then True else False, m.exposure.reason, m.exposure.message);
    FindAfterSet(cs1, RefsCondition(m.unresolved), m.now, TradeBotRefsResolved);
    FindAfterSet(cs2, e, m.now, TradeBotRefsResolved);
  }

  /** A failed reconcile leaves the published URL and the last exposure verdict standing, so neither is evidence that
      the FreqUI is reachable now; Ready is. */
  lemma FailureKeepsURL(s: Status, message: string, now: int)
    ensures var t := Apply(s, ReconcileFailed(message, now));
            && t.url == s.url && t.message == message && !IsStatusConditionTrue(t.conditions, Ready)
            && FindStatusCondition(t.conditions, ExposureReady) == FindStatusCondition(s.conditions, ExposureReady)
  {
    var w := Make(WorkloadReady, False, ReconcileError, message);
    var cs := SetStatusCondition(s.conditions, w, now);
    forall kind { FindAfterSet(s.conditions, w, now, kind); }
    forall kind { FindAfterSet(cs, Make(Ready, False, ReconcileError, message), now, kind); }
  }
}
