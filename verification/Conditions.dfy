/** Status conditions: the list every custom resource carries in its status, and the library upsert the
    controllers change it with (one entry per type; the transition time moves only when the status flips). */
module Conditions {
  import opened Wrappers

  datatype ConditionStatus = True | False | Unknown

  datatype ConditionType =
    | Ready | ConfigResolved | WorkloadReady | ConfigDrift | BotReachable | StateReconciled
    | ExposureReady | TradeBotRefsResolved | ResultsAvailable

  datatype Reason =
    | AsExpected | ReferenceNotFound | ConfigInvalid | SecretMissing | ReconcileError | JobModeRemoved
    | WorkloadProgressing | WorkloadHealthy | WorkloadFailed | WorkloadSucceeded | PendingRestart
    | ConnectionRefused | AuthFailed | Timeout | IntrospectionDisabled
    | BotUnreachable | StateChangePending | StateChangeFailed
    | GatewayAPINotInstalled | RouteNameConflict | RoutePending | RouteNotAccepted | ExposureNone
    | UnresolvableTradeBotRefs | ResultsUnavailable
    | Named(name: string)

  datatype Condition = Condition(
    kind: ConditionType, status: ConditionStatus, reason: Reason, message: string,
    observedGeneration: int, lastTransition: int)

  /** A condition as a controller writes it: the transition time is filled in by the upsert. */
  function Make(kind: ConditionType, status: ConditionStatus, reason: Reason, message: string): Condition {
    Condition(kind, status, reason, message, 0, 0)
  }

  function FindStatusCondition(cs: seq<Condition>, kind: ConditionType): Option<Condition> {
    if cs == [] then None
    else if cs[0].kind == kind then Some(cs[0])
    else FindStatusCondition(cs[1..], kind)
  }

  predicate IsStatusConditionTrue(cs: seq<Condition>, kind: ConditionType) {
    var c := FindStatusCondition(cs, kind);
    c.Some? && c.value.status == True
  }

  predicate IsStatusConditionFalse(cs: seq<Condition>, kind: ConditionType) {
    var c := FindStatusCondition(cs, kind);
    c.Some? && c.value.status == False
  }

  function SetStatusCondition(cs: seq<Condition>, c: Condition, now: int): seq<Condition> {
    if cs == [] then [c.(lastTransition := now)]
    else if cs[0].kind == c.kind then [Merged(Some(cs[0]), c, now)] + cs[1..]
    else [cs[0]] + SetStatusCondition(cs[1..], c, now)
  }

  function Merged(existing: Option<Condition>, c: Condition, now: int): Condition {
    if existing.Some? && existing.value.status == c.status
    then c.(lastTransition := existing.value.lastTransition)
    else c.(lastTransition := now)
  }

  /** The upsert replaces the entry of its own type and no other. */
  lemma {:induction false} FindAfterSet(cs: seq<Condition>, c: Condition, now: int, kind: ConditionType)
    ensures FindStatusCondition(SetStatusCondition(cs, c, now), kind)
         == if kind == c.kind then Some(Merged(FindStatusCondition(cs, kind), c, now))
            else FindStatusCondition(cs, kind)
  {
    if cs == [] {
    } else if cs[0].kind == c.kind {
      assert ([Merged(Some(cs[0]), c, now)] + cs[1..])[1..] == cs[1..];
    } else {
      FindAfterSet(cs[1..], c, now, kind);
      assert ([cs[0]] + SetStatusCondition(cs[1..], c, now))[1..] == SetStatusCondition(cs[1..], c, now);
    }
  }

  /** The entry says what was written; its transition time moves exactly when the status was another one before, or the
      entry is new; and the list keeps its order, a new entry coming last. */
  lemma {:induction false} TransitionMovesExactly(cs: seq<Condition>, c: Condition, now: int)
    ensures
      var before, after := FindStatusCondition(cs, c.kind), FindStatusCondition(SetStatusCondition(cs, c, now), c.kind);
      && after.Some? && after.value.(lastTransition := c.lastTransition) == c
      && (before.Some? && before.value.status == c.status ==>
            after.value.lastTransition == before.value.lastTransition)
      && (before.None? || before.value.status != c.status ==> after.value.lastTransition == now)
      && |SetStatusCondition(cs, c, now)| == |cs| + (if before.None? then 1 else 0)
      && forall i :: 0 <= i < |cs| ==> SetStatusCondition(cs, c, now)[i].kind == cs[i].kind
  {
    FindAfterSet(cs, c, now, c.kind);
    SetKeepsOrder(cs, c, now);
  }

  lemma {:induction false} SetKeepsOrder(cs: seq<Condition>, c: Condition, now: int)
    ensures |SetStatusCondition(cs, c, now)| == |cs| + (if FindStatusCondition(cs, c.kind).None? then 1 else 0)
    ensures forall i :: 0 <= i < |cs| ==> SetStatusCondition(cs, c, now)[i].kind == cs[i].kind
  {
    if cs != [] && cs[0].kind != c.kind { SetKeepsOrder(cs[1..], c, now); }
  }

  /** Setting the condition already stored changes nothing, whatever the clock says. */
  lemma {:induction false} SetOfStored(cs: seq<Condition>, c: Condition, now: int)
    requires FindStatusCondition(cs, c.kind) == Some(Merged(FindStatusCondition(cs, c.kind), c, now))
    ensures SetStatusCondition(cs, c, now) == cs
  {
    if cs[0].kind == c.kind {
      assert cs == [cs[0]] + cs[1..];
    } else {
      SetOfStored(cs[1..], c, now);
      assert cs == [cs[0]] + cs[1..];
    }
  }
}
