/** The TradeBot reconcile of a bot that is not being deleted, from the first check to its one status write, and the
    poller's status write: the same conditions set one after another on the object, shown to be TradeBotStatus.Apply. */
module TradeBotReconciler {
  import opened Wrappers
  import opened Conditions
  import opened TradeBotStatus

  datatype Lookup = Found | NotFound | Failed

  /** What one reconcile meets, in the order it meets it. */
  datatype Env = Env(
    command: string,                     // spec.freqtrade_command, trimmed
    references: Lookup,                  // TradeBotConfig and Strategy
    frequisListed: bool,
    corsWarning: string,
    render: Lookup,                      // NotFound: a Secret the config refers to is missing
    resourcesApplied: bool, drift: bool, driftMessage: string, configHash: string, image: string,
    readyReplicas: Option<nat>,          // of the StatefulSet, if it could be read
    patchOk: bool, errorText: string, generation: int, now: int)

  function Digits(n: nat): string {
    if n < 10 then [('0' as int + n) as char] else Digits(n / 10) + Digits(n % 10)
  }

  function WorkloadMessage(readyReplicas: nat): string {
    if readyReplicas >= 1 then "" else "Waiting for StatefulSet to become ready (" + Digits(readyReplicas) + " ready)"
  }

  /** The status write a reconcile ends in; a failed FreqUI list ends it without one. */
  function WriteOf(env: Env): Option<Mutate> {
    if env.command != "" && env.command != "trade" then Some(ReconcileFailed(JobMode, env.errorText, env.now))
    else if env.references != Found then
      Some(ReconcileFailed(ReferencesUnreadable(env.references == NotFound), env.errorText, env.now))
    else if !env.frequisListed then None
    else if env.render != Found then
      Some(ReconcileFailed(ConfigUnrenderable(env.render == NotFound), env.errorText, env.now))
    else if !env.resourcesApplied then Some(ReconcileFailed(ResourcesNotApplied, env.errorText, env.now))
    else if env.readyReplicas.None? then Some(ReconcileFailed(WorkloadUnreadable, env.errorText, env.now))
    else
      var message := WorkloadMessage(env.readyReplicas.value);
      Some(WorkloadObserved(env.readyReplicas.value >= 1, message,
                            if env.corsWarning != "" then env.corsWarning else message,
                            env.drift, env.driftMessage, env.generation, env.configHash, env.image, env.now))
  }

  function After(s: Status, env: Env): Status {
    if env.patchOk && WriteOf(env).Some? then TradeBotStatus.Apply(s, WriteOf(env).value) else s
  }

  /** Config and references are as they should be: nothing before the resources went wrong. */
  predicate ConfigIsFine(env: Env) {
    env.command in {"", "trade"} && env.references == Found && env.frequisListed && env.render == Found
  }

  predicate AllFine(env: Env) {
    ConfigIsFine(env) && env.resourcesApplied && env.readyReplicas.Some? && env.readyReplicas.value >= 1
  }

  /** After a reconcile whose status write went through, the bot is reported Ready, in phase Running, exactly when every
      step succeeded and the StatefulSet has a ready replica, whatever was stored before. */
  lemma ReadyExactly(s: Status, env: Env)
    requires env.patchOk && WriteOf(env).Some?
    ensures IsStatusConditionTrue(After(s, env).conditions, Ready) <==> AllFine(env)
    ensures After(s, env).phase == Running <==> AllFine(env)
  {
    var m := WriteOf(env).value;
    AfterWrite(s, m, ConfigResolved);
    AfterWrite(s, m, WorkloadReady);
    AfterWrite(s, m, Ready);
  }

  /** The phase names the step that failed, exactly, as long as the steps up to the config went well or failed now. A
      failure after them leaves an earlier config failure's condition standing, and then the phase still blames that. */
  lemma PhaseBlames(s: Status, env: Env)
    requires env.patchOk && WriteOf(env).Some?
    ensures var t := After(s, env);
            && (!ConfigIsFine(env) ==>
                  t.phase == if env.references == NotFound && env.command in {"", "trade"} then Error else ConfigError)
            && (ConfigIsFine(env) && env.resourcesApplied && env.readyReplicas.Some? && !AllFine(env) ==>
                  t.phase == Pending)
            && (ConfigIsFine(env) && !(env.resourcesApplied && env.readyReplicas.Some?) ==>
                  (t.phase == ResourceError <==> !IsStatusConditionFalse(s.conditions, ConfigResolved)))
  {
    var m := WriteOf(env).value;
    AfterWrite(s, m, ConfigResolved);
    AfterWrite(s, m, WorkloadReady);
    AfterWrite(s, m, Ready);
  }

  /** What a reconcile that could not finish says, and of which condition. */
  predicate Blames(t: Status, kind: ConditionType, reason: Reason, env: Env) {
    && Reads(t.conditions, kind, False, reason, env.errorText)
    && Reads(t.conditions, Ready, False, reason, env.errorText)
    && t.message == env.errorText
  }

  /** Each way to fail has its own condition and reason, the first that applies; none touches what the last good
      reconcile reported of the config and the image, nor the poller's part. */
  lemma {:induction false} FailureSays(s: Status, env: Env)
    requires env.patchOk && !(ConfigIsFine(env) && env.resourcesApplied && env.readyReplicas.Some?)
    ensures
      var t := After(s, env);
      && t.appliedConfigHash == s.appliedConfigHash && t.resolvedImage == s.resolvedImage && t.bot == s.bot
      && (env.command !in {"", "trade"} ==> Blames(t, ConfigResolved, JobModeRemoved, env))
      && (env.command in {"", "trade"} ==>
            && (env.references == NotFound ==> Blames(t, ConfigResolved, ReferenceNotFound, env))
            && (env.references == Failed ==> Blames(t, ConfigResolved, ReconcileError, env))
            && (env.references == Found && !env.frequisListed ==> t == s)
            && (env.references == Found && env.frequisListed ==>
                  && (env.render == NotFound ==> Blames(t, ConfigResolved, SecretMissing, env))
                  && (env.render == Failed ==> Blames(t, ConfigResolved, ConfigInvalid, env))
                  && (env.render == Found ==> Blames(t, WorkloadReady, ReconcileError, env))))
  {
    if WriteOf(env).Some? {
      var m := WriteOf(env).value;
      AfterWrite(s, m, ConfigResolved);
      AfterWrite(s, m, WorkloadReady);
      AfterWrite(s, m, Ready);
    }
  }

  lemma MessageSays(readyReplicas: nat)
    ensures WorkloadMessage(readyReplicas)
         == if readyReplicas >= 1 then "" else "Waiting for StatefulSet to become ready (0 ready)"
  {
    assert Digits(0) == "0";
    assert "Waiting for StatefulSet to become ready (" + "0" + " ready)"
        == "Waiting for StatefulSet to become ready (0 ready)";
  }

  /** A reconcile that got as far as the workload reports it, with the CORS warning, if there is one, as its message. */
  lemma {:induction false} SuccessSays(s: Status, env: Env)
    requires env.patchOk && ConfigIsFine(env) && env.resourcesApplied && env.readyReplicas.Some?
    ensures
      var t := After(s, env);
      && t.appliedConfigHash == env.configHash && t.resolvedImage == env.image && t.bot == s.bot
      && (IsStatusConditionTrue(t.conditions, ConfigDrift) <==> env.drift)
      && (IsStatusConditionTrue(t.conditions, WorkloadReady) <==> env.readyReplicas.value >= 1)
      && IsStatusConditionTrue(t.conditions, ConfigResolved)
      && (env.corsWarning != "" ==> t.message == env.corsWarning)
      && (env.corsWarning == "" ==>
            t.message == if env.readyReplicas.value >= 1 then ""
                         else "Waiting for StatefulSet to become ready (0 ready)")
  {
    MessageSays(env.readyReplicas.value);
    ReportIsStored(s, WriteOf(env).value);
  }

  class TradeBot {
    var status: Status

    constructor ()
      ensures status == EMPTY_STATUS
    {
      status := EMPTY_STATUS;
    }

    /** meta.SetStatusCondition on the object. */
    method Set(c: Condition, now: int)
      modifies this
      ensures status == old(status).(conditions := SetStatusCondition(old(status.conditions), c, now))
    {
      status := status.(conditions := SetStatusCondition(status.conditions, c, now));
    }

    method FailReconcile(failure: Failure, env: Env)
      modifies this
      ensures status == if env.patchOk
                        then TradeBotStatus.Apply(old(status), ReconcileFailed(failure, env.errorText, env.now))
                        else old(status)
    {
      if !env.patchOk { return; }
      ghost var m := ReconcileFailed(failure, env.errorText, env.now);
      Set(Make(failure.Kind(), False, failure.Reason(), env.errorText), env.now);
      Set(Make(Ready, False, failure.Reason(), env.errorText), env.now);
      SetTwo(old(status.conditions), Sets(m), env.now);
      status := status.(phase := DerivePhase(status.conditions), message := env.errorText);
    }

    method ReportWorkload(ready: bool, workloadMessage: string, message: string, env: Env)
      modifies this
      ensures status == if env.patchOk
                        then TradeBotStatus.Apply(old(status),
                               WorkloadObserved(ready, workloadMessage, message, env.drift, env.driftMessage,
                                                env.generation, env.configHash, env.image, env.now))
                        else old(status)
    {
      if !env.patchOk { return; }
      ghost var m := WorkloadObserved(ready, workloadMessage, message, env.drift, env.driftMessage, env.generation,
                                      env.configHash, env.image, env.now);
      var st, reason := if ready then True else False, if ready then WorkloadHealthy else WorkloadProgressing;
      Set(Make(ConfigResolved, True, AsExpected, ""), env.now);
      Set(Make(WorkloadReady, st, reason, workloadMessage), env.now);
      Set(Make(Ready, st, reason, message), env.now);
      Set(Condition(ConfigDrift, if env.drift then True else False, if env.drift then PendingRestart else AsExpected,
                    env.driftMessage, env.generation, 0), env.now);
      SetFour(old(status.conditions), Sets(m), env.now);
      status := status.(appliedConfigHash := env.configHash, resolvedImage := env.image,
                        phase := DerivePhase(status.conditions), message := message);
    }

    /** Reconcile, steps 3.5 to 8. */
    method Reconcile(env: Env)
      modifies this
      ensures status == After(old(status), env)
    {
      if env.command != "" && env.command != "trade" {
        FailReconcile(JobMode, env);
        return;
      }
      if env.references != Found {
        FailReconcile(ReferencesUnreadable(env.references == NotFound), env);
        return;
      }
      if !env.frequisListed { return; }
      if env.render != Found {
        FailReconcile(ConfigUnrenderable(env.render == NotFound), env);
        return;
      }
      if !env.resourcesApplied {
        FailReconcile(ResourcesNotApplied, env);
        return;
      }
      if env.readyReplicas.None? {
        FailReconcile(WorkloadUnreadable, env);
        return;
      }
      var workloadMessage := WorkloadMessage(env.readyReplicas.value);
      var message := workloadMessage;
      if env.corsWarning != "" { message := env.corsWarning; }
      ReportWorkload(env.readyReplicas.value >= 1, workloadMessage, message, env);
    }

    /** The closure of pollOne: mergeBotStatus into status.bot, then BotReachable. */
    method RecordPoll(outcome: PollOutcome, generation: int, now: int)
      modifies this
      ensures status == TradeBotStatus.Apply(old(status), Polled(outcome, generation, now))
      ensures status.bot.Some? && status.bot.value.lastPollTime == Some(now)
      ensures outcome.Reached? ==> Report(status.bot.value) == Report(outcome.bot)
      ensures outcome.Unreached? && old(status).bot.Some? ==>
                status.bot.value.(lastPollTime := old(status).bot.value.lastPollTime,
                                  lastPollError := old(status).bot.value.lastPollError) == old(status).bot.value
    {
      match outcome {
        case Reached(bot) => status := status.(bot := Some(bot.(lastPollTime := Some(now))));
        case Unreached(_, error) =>
          if status.bot.None? { status := status.(bot := Some(EMPTY_BOT_STATUS)); }
          status := status.(bot := Some(status.bot.value.(lastPollTime := Some(now), lastPollError := error)));
      }
      Set(ReachableCondition(outcome, generation), now);
      SetOne(old(status.conditions), ReachableCondition(outcome, generation), now);
    }
  }

  lemma {:induction false} SetOne(conditions: seq<Condition>, c: Condition, now: int)
    ensures SetAll(conditions, [c], now) == SetStatusCondition(conditions, c, now)
  {
    assert [c][1..] == [];
    assert SetAll(SetStatusCondition(conditions, c, now), [], now) == SetStatusCondition(conditions, c, now);
  }

  lemma SetTwo(conditions: seq<Condition>, cs: seq<Condition>, now: int)
    requires |cs| == 2
    ensures SetAll(conditions, cs, now) == SetStatusCondition(SetStatusCondition(conditions, cs[0], now), cs[1], now)
  {
    SetOne(SetStatusCondition(conditions, cs[0], now), cs[1], now);
    assert cs[1..] == [cs[1]];
  }

  lemma SetFour(conditions: seq<Condition>, cs: seq<Condition>, now: int)
    requires |cs| == 4
    ensures var after := SetStatusCondition(SetStatusCondition(conditions, cs[0], now), cs[1], now);
            SetAll(conditions, cs, now) == SetStatusCondition(SetStatusCondition(after, cs[2], now), cs[3], now)
  {
    var first := SetStatusCondition(conditions, cs[0], now);
    SetTwo(SetStatusCondition(first, cs[1], now), cs[2..], now);
    assert cs[1..][1..] == cs[2..];
    assert SetAll(first, cs[1..], now) == SetAll(SetStatusCondition(first, cs[1], now), cs[2..], now);
  }
}
