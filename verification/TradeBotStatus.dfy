/** The TradeBot's stored status and everything the reconciler and the poller may do to it. Two writers share the
    object through PatchStatus; here are their mutates and what every reachable stored status satisfies. */
module TradeBotStatus {
  import opened Wrappers
  import opened Conditions
  import opened PatchStatus

  datatype Phase = Unset | Running | Pending | Error | ConfigError | ResourceError

  datatype BotStatus = BotStatus(
    state: string, version: string, dryRun: Option<bool>, openTrades: Option<int>, maxOpenTrades: Option<int>,
    totalProfitAbs: string, totalProfitPct: string, lastPollTime: Option<int>, lastPollError: string)

  const EMPTY_BOT_STATUS := BotStatus("", "", None, None, None, "", "", None, "")

  datatype Status = Status(
    phase: Phase, message: string, conditions: seq<Condition>,
    appliedConfigHash: string, resolvedImage: string, bot: Option<BotStatus>)

  const EMPTY_STATUS := Status(Unset, "", [], "", "", None)

  /** The ways Reconcile gives up before it can report on the workload. */
  datatype Failure =
    | JobMode | ReferencesUnreadable(notFound: bool) | ConfigUnrenderable(secretMissing: bool)
    | ResourcesNotApplied | WorkloadUnreadable
  {
    function Kind(): ConditionType {
      if ResourcesNotApplied? || WorkloadUnreadable? then WorkloadReady else ConfigResolved
    }

    function Reason(): Conditions.Reason {
      match this
      case JobMode => JobModeRemoved
      case ReferencesUnreadable(notFound) => if notFound then ReferenceNotFound else ReconcileError
      case ConfigUnrenderable(secretMissing) => if secretMissing then SecretMissing else ConfigInvalid
      case ResourcesNotApplied => ReconcileError
      case WorkloadUnreadable => ReconcileError
    }
  }

  /** What reconcileState found out about spec.state. */
  datatype Verdict = InDesiredState | Unreachable | NoCredentials | CallFailed | CallIssued
  {
    function Reason(): Conditions.Reason {
      match this
      case InDesiredState => AsExpected
      case Unreachable => BotUnreachable
      case NoCredentials => StateChangeFailed
      case CallFailed => StateChangeFailed
      case CallIssued => StateChangePending
    }
  }

  datatype PollOutcome = Reached(bot: BotStatus) | Unreached(reason: Conditions.Reason, error: string)

  /** Every closure this operator hands to PatchStatus for a TradeBot; now is the clock it reads when it runs. */
  datatype Mutate =
    | WorkloadObserved(ready: bool, workloadMessage: string, message: string, drift: bool, driftMessage: string,
                       generation: int, configHash: string, image: string, now: int)
    | ReconcileFailed(failure: Failure, message: string, now: int)
    | StateChecked(verdict: Verdict, message: string, now: int)
    | Polled(outcome: PollOutcome, generation: int, now: int)
    | IntrospectionOff(generation: int, now: int)
  {
    predicate ByPoller() { Polled? || IntrospectionOff? }
  }

  function DerivePhase(conditions: seq<Condition>): Phase {
    var configResolved := FindStatusCondition(conditions, ConfigResolved);
    if configResolved.Some? && configResolved.value.status == False then
      if configResolved.value.reason == ReferenceNotFound then Error else ConfigError
    else
      var workload := FindStatusCondition(conditions, WorkloadReady);
      if workload.None? then Unset
      else if workload.value.reason == WorkloadHealthy then Running
      else if workload.value.reason == ReconcileError then ResourceError
      else Pending
  }

  function MergeBotStatus(existing: Option<BotStatus>, outcome: PollOutcome, now: int): BotStatus {
    match outcome
    case Reached(bot) => bot.(lastPollTime := Some(now))
    case Unreached(_, error) =>
      (if existing.Some? then existing.value else EMPTY_BOT_STATUS).(lastPollTime := Some(now), lastPollError := error)
  }

  function ReachableCondition(outcome: PollOutcome, generation: int): Condition {
    match outcome
    case Reached(_) => Condition(BotReachable, True, AsExpected, "", generation, 0)
    case Unreached(reason, error) => Condition(BotReachable, False, reason, error, generation, 0)
  }

  /** The four conditions of a reconcile that got as far as the workload, in the order they are set. */
  function WorkloadConditions(m: Mutate): seq<Condition>
    requires m.WorkloadObserved?
  {
    var status, reason := if m.ready then True else False, if m.ready then WorkloadHealthy else WorkloadProgressing;
    [ Make(ConfigResolved, True, AsExpected, ""),
      Make(WorkloadReady, status, reason, m.workloadMessage),
      Make(Ready, status, reason, m.message),
      Condition(ConfigDrift, if m.drift then True else False, if m.drift then PendingRestart else AsExpected,
                m.driftMessage, m.generation, 0) ]
  }

  /** The conditions a mutate sets, in order. */
  function Sets(m: Mutate): seq<Condition> {
    match m
    case WorkloadObserved(_, _, _, _, _, _, _, _, _) => WorkloadConditions(m)
    case ReconcileFailed(f, message, _) =>
      [Make(f.Kind(), False, f.Reason(), message), Make(Ready, False, f.Reason(), message)]
    case StateChecked(v, message, _) =>
      [Make(StateReconciled, if v.InDesiredState? then True else False, v.Reason(), message)]
    case Polled(outcome, generation, _) => [ReachableCondition(outcome, generation)]
    case IntrospectionOff(generation, _) =>
      [Condition(BotReachable, Unknown, IntrospectionDisabled,
                 "spec.introspection.enabled is false; the operator is not polling this bot", generation, 0)]
  }

  function SetAll(conditions: seq<Condition>, cs: seq<Condition>, now: int): seq<Condition>
    decreases cs
  {
    if cs == [] then conditions else SetAll(SetStatusCondition(conditions, cs[0], now), cs[1..], now)
  }

  function Apply(s: Status, m: Mutate): Status {
    var conditions := SetAll(s.conditions, Sets(m), m.now);
    match m
    case WorkloadObserved(_, _, message, _, _, _, configHash, image, _) =>
      s.(conditions := conditions, appliedConfigHash := configHash, resolvedImage := image,
         phase := DerivePhase(conditions), message := message)
    case ReconcileFailed(_, message, _) =>
      s.(conditions := conditions, phase := DerivePhase(conditions), message := message)
    case StateChecked(_, _, _) => s.(conditions := conditions)
    case Polled(outcome, _, now) =>
      s.(conditions := conditions, bot := Some(MergeBotStatus(s.bot, outcome, now)))
    case IntrospectionOff(_, _) => s.(conditions := conditions)
  }

  // ---------- Conditions after a mutate ----------

  /** The last condition of a type in cs decides, and a type cs does not mention is left alone. */
  function LastOf(cs: seq<Condition>, kind: ConditionType): Option<Condition> {
    if cs == [] then None
    else if cs[|cs| - 1].kind == kind then Some(cs[|cs| - 1])
    else LastOf(cs[..|cs| - 1], kind)
  }

  predicate SameReport(stored: Option<Condition>, c: Condition) {
    stored.Some? && stored.value.(lastTransition := c.lastTransition) == c
  }

  lemma {:induction false} SetAllSplit(conditions: seq<Condition>, cs: seq<Condition>, c: Condition, now: int)
    ensures SetAll(conditions, cs + [c], now) == SetStatusCondition(SetAll(conditions, cs, now), c, now)
    decreases cs
  {
    if cs == [] {
      assert [c][1..] == [] && cs + [c] == [c];
      assert SetAll(conditions, [c], now) == SetAll(SetStatusCondition(conditions, c, now), [], now);
    } else {
      SetAllSplit(SetStatusCondition(conditions, cs[0], now), cs[1..], c, now);
      assert (cs + [c])[1..] == cs[1..] + [c];
    }
  }

  lemma {:induction false} FindAfterSetAll(
      conditions: seq<Condition>, cs: seq<Condition>, now: int, kind: ConditionType)
    ensures var found := FindStatusCondition(SetAll(conditions, cs, now), kind);
            if LastOf(cs, kind).Some? then SameReport(found, LastOf(cs, kind).value)
            else found == FindStatusCondition(conditions, kind)
    decreases |cs|
  {
    if cs != [] {
      var init, c := cs[..|cs| - 1], cs[|cs| - 1];
      assert cs == init + [c];
      SetAllSplit(conditions, init, c, now);
      FindAfterSetAll(conditions, init, now, kind);
      FindAfterSet(SetAll(conditions, init, now), c, now, kind);
    }
  }

  lemma AfterMutate(s: Status, m: Mutate, kind: ConditionType)
    ensures var found := FindStatusCondition(Apply(s, m).conditions, kind);
            if LastOf(Sets(m), kind).Some? then SameReport(found, LastOf(Sets(m), kind).value)
            else found == FindStatusCondition(s.conditions, kind)
  {
    FindAfterSetAll(s.conditions, Sets(m), m.now, kind);
  }

  lemma {:induction false} LastOfAppend(cs: seq<Condition>, c: Condition, kind: ConditionType)
    ensures LastOf(cs + [c], kind) == if c.kind == kind then Some(c) else LastOf(cs, kind)
  {
    assert (cs + [c])[..|cs|] == cs;
  }

  /** LastOf, computed for the lists the mutates set. */
  lemma LastOfSets(m: Mutate, kind: ConditionType)
    ensures m.WorkloadObserved? ==>
              LastOf(Sets(m), kind) == match kind
                case ConfigResolved => Some(Sets(m)[0])
                case WorkloadReady => Some(Sets(m)[1])
                case Ready => Some(Sets(m)[2])
                case ConfigDrift => Some(Sets(m)[3])
                case _ => None
    ensures m.ReconcileFailed? ==>
              LastOf(Sets(m), kind) == if kind == Ready then Some(Sets(m)[1])
                                       else if kind == m.failure.Kind() then Some(Sets(m)[0]) else None
    ensures m.StateChecked? ==> LastOf(Sets(m), kind) == if kind == StateReconciled then Some(Sets(m)[0]) else None
    ensures m.ByPoller() ==> LastOf(Sets(m), kind) == if kind == BotReachable then Some(Sets(m)[0]) else None
  {
    var cs := Sets(m);
    if m.WorkloadObserved? { LastOfFour(cs, kind); }
    if m.ReconcileFailed? { LastOfTwo(cs, kind); }
  }

  lemma LastOfTwo(cs: seq<Condition>, kind: ConditionType)
    requires |cs| == 2
    ensures LastOf(cs, kind)
         == if cs[1].kind == kind then Some(cs[1]) else if cs[0].kind == kind then Some(cs[0]) else None
  {
    LastOfAppend(cs[..0], cs[0], kind);
    LastOfAppend(cs[..1], cs[1], kind);
    assert cs[..1] == cs[..0] + [cs[0]] && cs == cs[..1] + [cs[1]];
  }

  lemma LastOfFour(cs: seq<Condition>, kind: ConditionType)
    requires |cs| == 4
    ensures LastOf(cs, kind)
         == if cs[3].kind == kind then Some(cs[3]) else if cs[2].kind == kind then Some(cs[2])
            else if cs[1].kind == kind then Some(cs[1]) else if cs[0].kind == kind then Some(cs[0]) else None
  {
    LastOfTwo(cs[..2], kind);
    LastOfAppend(cs[..2], cs[2], kind);
    LastOfAppend(cs[..3], cs[3], kind);
    assert cs[..3] == cs[..2] + [cs[2]] && cs == cs[..3] + [cs[3]];
  }

  // ---------- Invariant of every stored status ----------

  ghost predicate Consistent(s: Status) {
    && s.phase == DerivePhase(s.conditions)
    && (IsStatusConditionTrue(s.conditions, Ready) <==> s.phase == Running)
  }

  lemma AfterWrite(s: Status, m: Mutate, kind: ConditionType)
    requires m.WorkloadObserved? || m.ReconcileFailed?
    ensures
      var found := FindStatusCondition(Apply(s, m).conditions, kind);
      var was := FindStatusCondition(s.conditions, kind);
      match kind
      case ConfigResolved =>
        if m.WorkloadObserved? then SameReport(found, Sets(m)[0])
        else if m.failure.Kind() == ConfigResolved then SameReport(found, Sets(m)[0]) else found == was
      case WorkloadReady =>
        if m.WorkloadObserved? then SameReport(found, Sets(m)[1])
        else if m.failure.Kind() == WorkloadReady then SameReport(found, Sets(m)[0]) else found == was
      case Ready => SameReport(found, Sets(m)[if m.WorkloadObserved? then 2 else 1])
      case _ => true
  {
    AfterMutate(s, m, kind);
    LastOfSets(m, kind);
  }

  lemma ApplyKeepsConsistent(s: Status, m: Mutate)
    requires Consistent(s)
    ensures Consistent(Apply(s, m))
  {
    if m.WorkloadObserved? || m.ReconcileFailed? {
      AfterWrite(s, m, ConfigResolved);
      AfterWrite(s, m, WorkloadReady);
      AfterWrite(s, m, Ready);
    } else {
      KeepsOthers(s, m, ConfigResolved);
      KeepsOthers(s, m, WorkloadReady);
      KeepsOthers(s, m, Ready);
      PhaseDependsOnConditions(s.conditions, Apply(s, m).conditions);
    }
  }

  lemma KeepsOthers(s: Status, m: Mutate, kind: ConditionType)
    requires !m.WorkloadObserved? && !m.ReconcileFailed? && kind != BotReachable && kind != StateReconciled
    ensures FindStatusCondition(Apply(s, m).conditions, kind) == FindStatusCondition(s.conditions, kind)
  {
    AfterMutate(s, m, kind);
    LastOfSets(m, kind);
  }

  lemma {:induction false} FoldKeepsConsistent(s: Status, ms: seq<Mutate>)
    requires Consistent(s)
    ensures Consistent(Fold(Apply, s, ms))
  {
    if ms != [] {
      FoldKeepsConsistent(s, ms[..|ms| - 1]);
      ApplyKeepsConsistent(Fold(Apply, s, ms[..|ms| - 1]), ms[|ms| - 1]);
    }
  }

  /** In every interleaving of reconciler and poller patches, the stored phase is the one its own conditions derive to,
      and Ready is True exactly when that phase is Running. */
  lemma {:induction false} StoredStatusIsConsistent(first: Object<Status>, events: seq<Event<Mutate>>)
    requires first.status == EMPTY_STATUS
    ensures Consistent(Latest(Run(Apply, first, events)).status)
  {
    NoLostUpdate(Apply, first, events);
    FoldKeepsConsistent(EMPTY_STATUS, Mutates(Run(Apply, first, events).log));
  }

  // ---------- The two writers do not disturb each other ----------

  function MutatesOf(ms: seq<Mutate>, poller: bool): seq<Mutate> {
    if ms == [] then []
    else (MutatesOf(ms[..|ms| - 1], poller)
          + if ms[|ms| - 1].ByPoller() == poller then [ms[|ms| - 1]] else [])
  }

  /** Two statuses agree on everything the poller (resp. the reconciler) reports. */
  ghost predicate SameView(s: Status, t: Status, poller: bool) {
    if poller then
      && s.bot == t.bot
      && FindStatusCondition(s.conditions, BotReachable) == FindStatusCondition(t.conditions, BotReachable)
    else
      && s.phase == t.phase && s.message == t.message
      && s.appliedConfigHash == t.appliedConfigHash && s.resolvedImage == t.resolvedImage
      && forall k :: k != BotReachable ==> FindStatusCondition(s.conditions, k) == FindStatusCondition(t.conditions, k)
  }

  lemma PhaseDependsOnConditions(cs: seq<Condition>, ds: seq<Condition>)
    requires FindStatusCondition(cs, ConfigResolved) == FindStatusCondition(ds, ConfigResolved)
    requires FindStatusCondition(cs, WorkloadReady) == FindStatusCondition(ds, WorkloadReady)
    ensures DerivePhase(cs) == DerivePhase(ds)
  {}

  /** The same mutate keeps two views equal, and the other writer's mutate does not touch the view at all. */
  lemma {:induction false} SetAllCongruent(
    cs: seq<Condition>, ds: seq<Condition>, added: seq<Condition>, now: int, kind: ConditionType)
    requires FindStatusCondition(cs, kind) == FindStatusCondition(ds, kind)
    ensures FindStatusCondition(SetAll(cs, added, now), kind) == FindStatusCondition(SetAll(ds, added, now), kind)
    decreases added
  {
    if added != [] {
      FindAfterSet(cs, added[0], now, kind);
      FindAfterSet(ds, added[0], now, kind);
      SetAllCongruent(
        SetStatusCondition(cs, added[0], now), SetStatusCondition(ds, added[0], now), added[1..], now, kind);
    }
  }

  lemma OwnMutateKeepsView(s: Status, t: Status, m: Mutate)
    requires SameView(s, t, m.ByPoller())
    ensures SameView(Apply(s, m), Apply(t, m), m.ByPoller())
  {
    forall k | m.ByPoller() == (k == BotReachable)
      ensures FindStatusCondition(Apply(s, m).conditions, k) == FindStatusCondition(Apply(t, m).conditions, k)
    {
      SetAllCongruent(s.conditions, t.conditions, Sets(m), m.now, k);
    }
    if !m.ByPoller() { PhaseDependsOnConditions(Apply(s, m).conditions, Apply(t, m).conditions); }
  }

  lemma OtherMutateKeepsView(s: Status, m: Mutate)
    ensures SameView(s, Apply(s, m), !m.ByPoller())
  {
    forall k | m.ByPoller() == (k != BotReachable)
      ensures FindStatusCondition(Apply(s, m).conditions, k) == FindStatusCondition(s.conditions, k)
    {
      AfterMutate(s, m, k);
      LastOfSets(m, k);
    }
  }

  lemma {:induction false} FoldSplits(s: Status, ms: seq<Mutate>, poller: bool)
    ensures SameView(Fold(Apply, s, ms), Fold(Apply, s, MutatesOf(ms, poller)), poller)
  {
    if ms != [] {
      var init, m := ms[..|ms| - 1], ms[|ms| - 1];
      FoldSplits(s, init, poller);
      var own := MutatesOf(ms, poller);
      if m.ByPoller() == poller {
        assert own[..|own| - 1] == MutatesOf(init, poller);
        OwnMutateKeepsView(Fold(Apply, s, init), Fold(Apply, s, MutatesOf(init, poller)), m);
      } else {
        assert own == MutatesOf(init, poller);
        OtherMutateKeepsView(Fold(Apply, s, init), m);
      }
    }
  }

  /** In every interleaving, BotReachable and status.bot are what the poller's committed patches alone would have left,
      and everything else is what the reconciler's committed patches alone would have left. */
  lemma {:induction false} WritersDoNotInterfere(first: Object<Status>, events: seq<Event<Mutate>>)
    ensures
      var w := Run(Apply, first, events);
      && SameView(Latest(w).status, Fold(Apply, first.status, MutatesOf(Mutates(w.log), true)), true)
      && SameView(Latest(w).status, Fold(Apply, first.status, MutatesOf(Mutates(w.log), false)), false)
  {
    NoLostUpdate(Apply, first, events);
    var ms := Mutates(Run(Apply, first, events).log);
    FoldSplits(first.status, ms, true);
    FoldSplits(first.status, ms, false);
  }

  // ---------- Which mutates are idempotent ----------

  function At(m: Mutate, now: int): Mutate {
    m.(now := now)
  }

  lemma {:induction false} SetAllAgain(conditions: seq<Condition>, cs: seq<Condition>, now: int)
    requires forall c :: c in cs ==>
               FindStatusCondition(conditions, c.kind) == Some(Merged(FindStatusCondition(conditions, c.kind), c, now))
    ensures SetAll(conditions, cs, now) == conditions
    decreases cs
  {
    if cs != [] {
      assert cs[0] in cs;
      SetOfStored(conditions, cs[0], now);
      SetAllAgain(conditions, cs[1..], now);
    }
  }

  /** No two conditions of one mutate share a type, so each is found unchanged after all were set. */
  lemma SetsAreStored(s: Status, m: Mutate, c: Condition, now: int)
    requires c in Sets(m)
    ensures var cs := Apply(s, m).conditions;
            FindStatusCondition(cs, c.kind) == Some(Merged(FindStatusCondition(cs, c.kind), c, now))
  {
    LastOfSets(m, c.kind);
    AfterMutate(s, m, c.kind);
  }

  /** The contract PatchStatus states for its closures, that repeating one is a true no-op, holds of every closure of
      this operator on every status exactly when it is not a poll repeated at a later instant: a poll always stamps
      lastPollTime, so it always costs a write. */
  lemma RepeatedMutateIsNoOp(s: Status, m: Mutate, later: int)
    ensures Apply(Apply(s, m), At(m, later)) == Apply(s, m) <==> (m.Polled? ==> later == m.now)
  {
    var t := Apply(s, m);
    forall c | c in Sets(At(m, later))
      ensures FindStatusCondition(t.conditions, c.kind)
           == Some(Merged(FindStatusCondition(t.conditions, c.kind), c, later))
    {
      SetsAreStored(s, m, c, later);
    }
    SetAllAgain(t.conditions, Sets(At(m, later)), later);
  }

  // ---------- What a poll leaves in status.bot ----------

  /** The poll's own report, apart from when it was and how the last one failed. */
  function Report(bot: BotStatus): BotStatus {
    bot.(lastPollTime := None, lastPollError := "")
  }

  /** A successful poll replaces the whole of status.bot by what it saw; a failed one keeps the last good report and
      moves only the time and the error. BotReachable says which it was, of the generation polled. */
  lemma {:induction false} PollKeepsLastGood(s: Status, outcome: PollOutcome, generation: int, now: int)
    ensures
      var t := Apply(s, Polled(outcome, generation, now));
      var reachable := FindStatusCondition(t.conditions, BotReachable);
      && t.bot.Some? && t.bot.value.lastPollTime == Some(now)
      && reachable.Some? && reachable.value.observedGeneration == generation
      && (outcome.Reached? ==>
            && t.bot.value.lastPollError == outcome.bot.lastPollError && Report(t.bot.value) == Report(outcome.bot)
            && reachable.value.status == True && reachable.value.reason == AsExpected
            && reachable.value.message == "")
      && (outcome.Unreached? ==>
            && t.bot.value.lastPollError == outcome.error
            && Report(t.bot.value) == (if s.bot.Some? then Report(s.bot.value) else EMPTY_BOT_STATUS)
            && reachable.value.status == False && reachable.value.reason == outcome.reason
            && reachable.value.message == outcome.error)
  {
    var m := Polled(outcome, generation, now);
    AfterMutate(s, m, BotReachable);
    LastOfSets(m, BotReachable);
  }

  /** The report of the last successful poll among the mutates, else the one from before. */
  function LastGood(ms: seq<Mutate>, before: BotStatus): BotStatus {
    if ms == [] then before
    else
      var m := ms[|ms| - 1];
      if m.Polled? && m.outcome.Reached? then Report(m.outcome.bot) else LastGood(ms[..|ms| - 1], before)
  }

  /** The last poll among the mutates, successful or not. */
  function LastPoll(ms: seq<Mutate>): (m: Option<Mutate>)
    ensures m.Some? ==> m.value.Polled? && m.value in ms
  {
    if ms == [] then None
    else if ms[|ms| - 1].Polled? then Some(ms[|ms| - 1])
    else LastPoll(ms[..|ms| - 1])
  }

  ghost predicate BotFollows(first: Option<BotStatus>, bot: Option<BotStatus>, ms: seq<Mutate>) {
    match LastPoll(ms)
    case None => bot == first
    case Some(m) =>
      && bot.Some? && bot.value.lastPollTime == Some(m.now)
      && bot.value.lastPollError == (if m.outcome.Reached? then m.outcome.bot.lastPollError else m.outcome.error)
      && Report(bot.value) == LastGood(ms, if first.Some? then Report(first.value) else EMPTY_BOT_STATUS)
  }

  lemma {:induction false} NoPollNoReport(ms: seq<Mutate>, before: BotStatus)
    ensures LastPoll(ms).None? ==> LastGood(ms, before) == before
  {
    if ms != [] { NoPollNoReport(ms[..|ms| - 1], before); }
  }

  lemma OnlyPollsTouchBot(s: Status, m: Mutate)
    requires !m.Polled?
    ensures Apply(s, m).bot == s.bot
  {}

  lemma {:induction false} ApplyFollowsPolls(first: Option<BotStatus>, s: Status, ms: seq<Mutate>)
    requires ms != [] && BotFollows(first, s.bot, ms[..|ms| - 1])
    ensures BotFollows(first, Apply(s, ms[|ms| - 1]).bot, ms)
  {
    var m := ms[|ms| - 1];
    if m.Polled? {
      PollKeepsLastGood(s, m.outcome, m.generation, m.now);
      NoPollNoReport(ms[..|ms| - 1], if first.Some? then Report(first.value) else EMPTY_BOT_STATUS);
    } else {
      OnlyPollsTouchBot(s, m);
    }
  }

  lemma {:induction false} FoldFollowsPolls(s: Status, ms: seq<Mutate>)
    ensures BotFollows(s.bot, Fold(Apply, s, ms).bot, ms)
  {
    if ms != [] {
      FoldFollowsPolls(s, ms[..|ms| - 1]);
      ApplyFollowsPolls(s.bot, Fold(Apply, s, ms[..|ms| - 1]), ms);
    }
  }

  /** Over every run, with any interleaving of reconciler and poller, stale reads and conflicts: the stored status.bot
      is the report of the last successful poll that was committed, with the time of the last committed poll and, if
      that one failed, its error. Failed polls never erase what an earlier one saw. */
  lemma {:induction false} StoredBotIsLastGood(first: Object<Status>, events: seq<Event<Mutate>>)
    ensures var w := Run(Apply, first, events);
            BotFollows(first.status.bot, Latest(w).status.bot, Mutates(w.log))
  {
    NoLostUpdate(Apply, first, events);
    FoldFollowsPolls(first.status, Mutates(Run(Apply, first, events).log));
  }

  // ---------- What the other patches leave, field by field ----------

  /** The condition as it is found in a list, apart from its transition time. */
  predicate Reads(
      cs: seq<Condition>, kind: ConditionType, status: ConditionStatus, reason: Reason, message: string)
  {
    var c := FindStatusCondition(cs, kind);
    c.Some? && c.value.status == status && c.value.reason == reason && c.value.message == message
  }

  /** A workload report: everything it says is in the stored status, and the poller's part is untouched. */
  lemma ReportIsStored(s: Status, m: Mutate)
    requires m.WorkloadObserved?
    ensures
      var t := Apply(s, m);
      && t.phase == (if m.ready then Running else Pending) && t.message == m.message
      && t.appliedConfigHash == m.configHash && t.resolvedImage == m.image && t.bot == s.bot
      && Reads(t.conditions, ConfigResolved, True, AsExpected, "")
      && (m.ready ==> Reads(t.conditions, WorkloadReady, True, WorkloadHealthy, m.workloadMessage)
                      && Reads(t.conditions, Ready, True, WorkloadHealthy, m.message))
      && (!m.ready ==> Reads(t.conditions, WorkloadReady, False, WorkloadProgressing, m.workloadMessage)
                       && Reads(t.conditions, Ready, False, WorkloadProgressing, m.message))
      && (m.drift ==> Reads(t.conditions, ConfigDrift, True, PendingRestart, m.driftMessage))
      && (!m.drift ==> Reads(t.conditions, ConfigDrift, False, AsExpected, m.driftMessage))
      && FindStatusCondition(t.conditions, ConfigDrift).value.observedGeneration == m.generation
  {
    AfterWrite(s, m, ConfigResolved);
    AfterWrite(s, m, WorkloadReady);
    AfterWrite(s, m, Ready);
    AfterMutate(s, m, ConfigDrift);
    LastOfSets(m, ConfigDrift);
  }

  /** Switching introspection off says so, of the generation it is off in, and leaves status.bot, however stale. */
  lemma IntrospectionOffKeepsBot(s: Status, generation: int, now: int)
    ensures
      var t := Apply(s, IntrospectionOff(generation, now));
      var c := FindStatusCondition(t.conditions, BotReachable);
      && t.bot == s.bot && t.phase == s.phase && t.message == s.message
      && c.Some? && c.value.status == Unknown && c.value.reason == IntrospectionDisabled
      && c.value.observedGeneration == generation
  {
    AfterMutate(s, IntrospectionOff(generation, now), BotReachable);
    LastOfSets(IntrospectionOff(generation, now), BotReachable);
  }
}
