/** TradeBot between its two API versions, and the two status copies the operator makes so that its own writes go
    through v1beta1. v1beta1 alone has spec.state; v1alpha1 alone has the one-shot-run fields. */
module TradeBotConversion {
  import opened Wrappers
  import opened Conditions
  import opened GoJson

  datatype Meta = Meta(name: string, namespace: string, finalizers: set<string>, deleting: bool)

  datatype AlphaSpec = AlphaSpec(
    freqtradeCommand: string, freqtradeArguments: seq<string>, config: string, strategy: string,
    app: Option<Value>, data: Option<string>, updateStrategy: string, introspection: Option<Value>)

  datatype BetaSpec = BetaSpec(
    configRef: string, strategyRef: string, app: Option<Value>, updateStrategy: string, introspection: Option<Value>,
    state: string)

  datatype Status = Status(
    phase: string, message: string, conditions: seq<Condition>, observedGeneration: int, appliedConfigHash: string,
    resolvedImage: string, bot: Option<Value>)

  datatype Alpha = Alpha(meta: Meta, spec: AlphaSpec, status: Status)
  datatype Beta = Beta(meta: Meta, spec: BetaSpec, status: Status)

  const NO_META := Meta("", "", {}, false)
  const NO_STATUS := Status("", "", [], 0, "", "", None)
  const EMPTY_ALPHA := Alpha(NO_META, AlphaSpec("", [], "", "", None, None, "", None), NO_STATUS)
  const EMPTY_BETA := Beta(NO_META, BetaSpec("", "", None, "", None, ""), NO_STATUS)

  const INTERVAL := 1

  const INTROSPECTION_TYPE := Struct([Field("enabled", true, Pointer(Flag)), Field("interval", false, Number)])

  /** The Go types behind the three JSON passes, the same in both versions. */
  datatype Shape = Shape(app: Type, introspection: Type, bot: Type)
  {
    predicate Ok() { WellFormed(app) && WellFormed(introspection) && WellFormed(bot) }
  }

  const LAST_POLL_TIME := 7

  const BOT_TYPE := Struct([
    Field("state", true, Text), Field("version", true, Text), Field("dryRun", true, Pointer(Flag)),
    Field("openTrades", true, Pointer(Number)), Field("maxOpenTrades", true, Pointer(Number)),
    Field("totalProfitAbs", true, Text), Field("totalProfitPct", true, Text),
    Field("lastPollTime", true, Pointer(Instant)), Field("lastPollError", true, Text)])

  /** The operator's own shape, with spec.app, a large tree of Kubernetes types, left open. */
  lemma {:induction false} OwnShapeIsOk(app: Type)
    requires WellFormed(app)
    ensures Shape(app, INTROSPECTION_TYPE, BOT_TYPE).Ok()
  {
    var fs := BOT_TYPE.fields;
    assert forall i :: 0 <= i < |fs| ==> WellFormed(fs[i].ty);
  }

  ghost predicate TypedAlpha(sh: Shape, a: Alpha) {
    && sh.Ok() && TypedOption(sh.app, a.spec.app) && TypedOption(sh.introspection, a.spec.introspection)
    && TypedOption(sh.bot, a.status.bot)
  }

  ghost predicate TypedBeta(sh: Shape, b: Beta) {
    && sh.Ok() && TypedOption(sh.app, b.spec.app) && TypedOption(sh.introspection, b.spec.introspection)
    && TypedOption(sh.bot, b.status.bot)
  }

  // ---------- The conversions ----------

  predicate TradeMode(a: Alpha) {
    a.spec.freqtradeCommand == "" || a.spec.freqtradeCommand == "trade"
  }

  ghost function Merged(t: Type, from: Option<Value>, into: Option<Value>): Option<Value>
    requires WellFormed(t) && TypedOption(t, from)
  {
    if from.None? then into else ConvertOption(t, from)
  }

  ghost function StatusOver(sh: Shape, from: Status, into: Status): Status
    requires sh.Ok() && TypedOption(sh.bot, from.bot)
  {
    from.(bot := Merged(sh.bot, from.bot, into.bot))
  }

  /** ConvertTo over a destination: spec.state is not mentioned, and absent parts leave what was there. */
  ghost function ToBeta(sh: Shape, a: Alpha, into: Beta): Beta
    requires TypedAlpha(sh, a)
  {
    Beta(a.meta,
         BetaSpec(a.spec.config, a.spec.strategy, Merged(sh.app, a.spec.app, into.spec.app), a.spec.updateStrategy,
                  Merged(sh.introspection, a.spec.introspection, into.spec.introspection), into.spec.state),
         StatusOver(sh, a.status, into.status))
  }

  ghost function FromBeta(sh: Shape, b: Beta, into: Alpha): Alpha
    requires TypedBeta(sh, b)
  {
    Alpha(b.meta,
          into.spec.(config := b.spec.configRef, strategy := b.spec.strategyRef,
                     app := Merged(sh.app, b.spec.app, into.spec.app), updateStrategy := b.spec.updateStrategy,
                     introspection := Merged(sh.introspection, b.spec.introspection, into.spec.introspection)),
          StatusOver(sh, b.status, into.status))
  }

  /** What became of one JSON part: left as the destination had it if the source has none, else the source's own value
      as the pass carries it. */
  ghost predicate Carried(t: Type, from: Option<Value>, was: Option<Value>, now: Option<Value>)
    requires TypedOption(t, from)
  {
    if from.None? then now == was else now == Some(Canon(t, from.value))
  }

  /** Field by field: every field arrives under the name the other version has for it, spec.state stays the v1beta1
      destination's and the one-shot-run fields the v1alpha1 destination's. */
  lemma FieldsArrive(sh: Shape, a: Alpha, b: Beta)
    requires TypedAlpha(sh, a) && TypedBeta(sh, b)
    ensures
      var b', a' := ToBeta(sh, a, b), FromBeta(sh, b, a);
      && b'.meta == a.meta && b'.spec.configRef == a.spec.config && b'.spec.strategyRef == a.spec.strategy
      && b'.spec.updateStrategy == a.spec.updateStrategy && b'.spec.state == b.spec.state
      && b'.status == a.status.(bot := b'.status.bot)
      && Carried(sh.app, a.spec.app, b.spec.app, b'.spec.app)
      && Carried(sh.introspection, a.spec.introspection, b.spec.introspection, b'.spec.introspection)
      && Carried(sh.bot, a.status.bot, b.status.bot, b'.status.bot)
      && a'.meta == b.meta && a'.spec.config == b.spec.configRef && a'.spec.strategy == b.spec.strategyRef
      && a'.spec.updateStrategy == b.spec.updateStrategy
      && a'.spec.freqtradeCommand == a.spec.freqtradeCommand
      && a'.spec.freqtradeArguments == a.spec.freqtradeArguments && a'.spec.data == a.spec.data
      && a'.status == b.status.(bot := a'.status.bot)
      && Carried(sh.app, b.spec.app, a.spec.app, a'.spec.app)
      && Carried(sh.introspection, b.spec.introspection, a.spec.introspection, a'.spec.introspection)
      && Carried(sh.bot, b.status.bot, a.status.bot, a'.status.bot)
  {}

  // ---------- Round trips ----------

  /** The three parts that go through JSON. */
  ghost predicate SameParts(sh: Shape, app: Option<Value>, intro: Option<Value>, bot: Option<Value>,
                            app': Option<Value>, intro': Option<Value>, bot': Option<Value>)
    requires TypedOption(sh.app, app) && TypedOption(sh.introspection, intro) && TypedOption(sh.bot, bot)
    requires TypedOption(sh.app, app') && TypedOption(sh.introspection, intro') && TypedOption(sh.bot, bot')
  {
    SameOption(sh.app, app, app') && SameOption(sh.introspection, intro, intro') && SameOption(sh.bot, bot, bot')
  }

  /** What a reader of the object sees: a blank command means trade, a blank state means Running. */
  function Command(a: Alpha): string {
    if a.spec.freqtradeCommand == "" then "trade" else a.spec.freqtradeCommand
  }

  function Effective(state: string): string {
    if state == "" then "Running" else state
  }

  ghost predicate SameAlpha(sh: Shape, a: Alpha, b: Alpha)
    requires TypedAlpha(sh, a) && TypedAlpha(sh, b)
  {
    && a.meta == b.meta && Command(a) == Command(b)
    && a.spec.freqtradeArguments == b.spec.freqtradeArguments && a.spec.data == b.spec.data
    && a.spec.config == b.spec.config && a.spec.strategy == b.spec.strategy
    && a.spec.updateStrategy == b.spec.updateStrategy
    && a.status == b.status.(bot := a.status.bot)
    && SameParts(sh, a.spec.app, a.spec.introspection, a.status.bot, b.spec.app, b.spec.introspection, b.status.bot)
  }

  ghost predicate SameBeta(sh: Shape, a: Beta, b: Beta)
    requires TypedBeta(sh, a) && TypedBeta(sh, b)
  {
    && a.meta == b.meta && Effective(a.spec.state) == Effective(b.spec.state)
    && a.spec.configRef == b.spec.configRef && a.spec.strategyRef == b.spec.strategyRef
    && a.spec.updateStrategy == b.spec.updateStrategy
    && a.status == b.status.(bot := a.status.bot)
    && SameParts(sh, a.spec.app, a.spec.introspection, a.status.bot, b.spec.app, b.spec.introspection, b.status.bot)
  }

  ghost predicate LosslessParts(sh: Shape, app: Option<Value>, intro: Option<Value>, bot: Option<Value>)
    requires TypedOption(sh.app, app) && TypedOption(sh.introspection, intro) && TypedOption(sh.bot, bot)
  {
    LosslessOption(sh.app, app) && LosslessOption(sh.introspection, intro) && LosslessOption(sh.bot, bot)
  }

  /** Both directions of all three JSON parts at once. */
  lemma PartsTwice(sh: Shape, app: Option<Value>, intro: Option<Value>, bot: Option<Value>)
    requires sh.Ok()
    requires TypedOption(sh.app, app) && TypedOption(sh.introspection, intro) && TypedOption(sh.bot, bot)
    ensures TypedOption(sh.app, ConvertOption(sh.app, app))
    ensures TypedOption(sh.introspection, ConvertOption(sh.introspection, intro))
    ensures TypedOption(sh.bot, ConvertOption(sh.bot, bot))
    ensures ConvertOption(sh.app, ConvertOption(sh.app, app)) == ConvertOption(sh.app, app)
    ensures ConvertOption(sh.introspection, ConvertOption(sh.introspection, intro))
         == ConvertOption(sh.introspection, intro)
    ensures ConvertOption(sh.bot, ConvertOption(sh.bot, bot)) == ConvertOption(sh.bot, bot)
    ensures SameParts(sh, app, intro, bot, ConvertOption(sh.app, app), ConvertOption(sh.introspection, intro),
                      ConvertOption(sh.bot, bot))
       <==> LosslessParts(sh, app, intro, bot)
  {
    OptionTwice(sh.app, app);
    OptionTwice(sh.introspection, intro);
    OptionTwice(sh.bot, bot);
  }

  /** v1alpha1 to v1beta1 and back, for an object ConvertTo accepts: the same object, up to nil and empty, exactly when
      it has no arguments and no data cache left over from one-shot runs and its JSON parts are ones the pass
      carries. */
  lemma AlphaRoundTrip(sh: Shape, a: Alpha)
    requires TypedAlpha(sh, a) && TradeMode(a)
    ensures TypedBeta(sh, ToBeta(sh, a, EMPTY_BETA))
    ensures TypedAlpha(sh, FromBeta(sh, ToBeta(sh, a, EMPTY_BETA), EMPTY_ALPHA))
    ensures SameAlpha(sh, a, FromBeta(sh, ToBeta(sh, a, EMPTY_BETA), EMPTY_ALPHA))
       <==> a.spec.freqtradeArguments == [] && a.spec.data == None
            && LosslessParts(sh, a.spec.app, a.spec.introspection, a.status.bot)
  {
    PartsTwice(sh, a.spec.app, a.spec.introspection, a.status.bot);
  }

  /** v1beta1 to v1alpha1 and back: always accepted, and the same object exactly when its state was effectively Running
      (v1alpha1 has nowhere to put Stopped) and its JSON parts are ones the pass carries. */
  lemma BetaRoundTrip(sh: Shape, b: Beta)
    requires TypedBeta(sh, b)
    ensures TypedAlpha(sh, FromBeta(sh, b, EMPTY_ALPHA)) && TradeMode(FromBeta(sh, b, EMPTY_ALPHA))
    ensures TypedBeta(sh, ToBeta(sh, FromBeta(sh, b, EMPTY_ALPHA), EMPTY_BETA))
    ensures SameBeta(sh, b, ToBeta(sh, FromBeta(sh, b, EMPTY_ALPHA), EMPTY_BETA))
       <==> Effective(b.spec.state) == "Running"
            && LosslessParts(sh, b.spec.app, b.spec.introspection, b.status.bot)
  {
    PartsTwice(sh, b.spec.app, b.spec.introspection, b.status.bot);
  }

  /** A poll time the JSON pass carries: whole seconds, and not a pointer to the zero time. */
  predicate WholePollTime(bot: Value)
    requires bot.StructOf? && LAST_POLL_TIME < |bot.values|
  {
    var p := bot.values[LAST_POLL_TIME];
    p.PointerTo? && p.target.InstantOf? ==> p.target.nanos > 0 && p.target.nanos % SECOND == 0
  }

  lemma {:induction false} IntrospectionSurvives(v: Value)
    requires HasType(INTROSPECTION_TYPE, v)
    ensures Lossless(INTROSPECTION_TYPE, v)
  {
    var fs := INTROSPECTION_TYPE.fields;
    assert Plain(fs[0].ty) && Plain(fs[1].ty);
    PlainLosesNothing(INTROSPECTION_TYPE, v);
  }

  /** Of a bot status, only the poll time decides. */
  lemma PollTimeDecides(v: Value)
    requires HasType(BOT_TYPE, v)
    ensures Lossless(BOT_TYPE, v) <==> WholePollTime(v)
  {
    var fs := BOT_TYPE.fields;
    forall i | 0 <= i < |fs| && i != LAST_POLL_TIME ensures Lossless(fs[i].ty, v.values[i]) {
      assert Plain(fs[i].ty);
      PlainLosesNothing(fs[i].ty, v.values[i]);
    }
    var p := v.values[LAST_POLL_TIME];
    assert fs[LAST_POLL_TIME].ty == Pointer(Instant) && HasType(Pointer(Instant), p);
    if p.PointerTo? {
      assert HasType(Instant, p.target);
      assert Lossless(Pointer(Instant), p) <==> !Nullish(Instant, p.target) && Lossless(Instant, p.target);
    }
  }

  /** For the operator's own shape the round trips therefore lose, besides what spec.app's own types may lose, only an
      uneven poll time. */
  lemma OwnPartsSurvive(app: Type, a: Option<Value>, intro: Option<Value>, bot: Option<Value>)
    requires TypedOption(app, a) && TypedOption(INTROSPECTION_TYPE, intro) && TypedOption(BOT_TYPE, bot)
    ensures LosslessParts(Shape(app, INTROSPECTION_TYPE, BOT_TYPE), a, intro, bot)
       <==> LosslessOption(app, a) && (bot.Some? ==> WholePollTime(bot.value))
  {
    if intro.Some? { IntrospectionSurvives(intro.value); }
    if bot.Some? { PollTimeDecides(bot.value); }
  }

  // ---------- The objects, written in place ----------

  class BetaTradeBot {
    var meta: Meta
    var spec: BetaSpec
    var status: Status

    ghost function View(): Beta reads this {
      Beta(meta, spec, status)
    }

    constructor (b: Beta)
      ensures View() == b
    {
      meta, spec, status := b.meta, b.spec, b.status;
    }
  }

  class AlphaTradeBot {
    var meta: Meta
    var spec: AlphaSpec
    var status: Status

    ghost function View(): Alpha reads this {
      Alpha(meta, spec, status)
    }

    constructor (a: Alpha)
      ensures View() == a
    {
      meta, spec, status := a.meta, a.spec, a.status;
    }

    /** ConvertTo: fails, leaving the destination alone, exactly for a command other than trade (not trimmed here). */
    method ConvertTo(sh: Shape, dst: BetaTradeBot) returns (r: Result<(), string>)
      requires TypedAlpha(sh, View())
      modifies dst
      ensures r.Success? <==> TradeMode(View())
      ensures dst.View() == if r.Success? then ToBeta(sh, View(), old(dst.View())) else old(dst.View())
      ensures dst.spec.state == old(dst.spec.state)
      ensures r.Success? ==> dst.meta == meta && dst.spec.configRef == spec.config
                             && dst.spec.strategyRef == spec.strategy && dst.spec.updateStrategy == spec.updateStrategy
                             && dst.status == status.(bot := dst.status.bot)
      ensures r.Failure? ==> r.error == spec.freqtradeCommand
    {
      var cmd := spec.freqtradeCommand;
      if cmd != "" && cmd != "trade" { return Failure(cmd); }
      dst.meta := meta;
      dst.spec := dst.spec.(configRef := spec.config, strategyRef := spec.strategy,
                            updateStrategy := spec.updateStrategy);
      if spec.app.Some? { dst.spec := dst.spec.(app := Some(ConvertJSON(sh.app, spec.app.value))); }
      if spec.introspection.Some? {
        dst.spec := dst.spec.(introspection := Some(ConvertJSON(sh.introspection, spec.introspection.value)));
      }
      dst.status := status.(bot := dst.status.bot);
      if status.bot.Some? { dst.status := dst.status.(bot := Some(ConvertJSON(sh.bot, status.bot.value))); }
      r := Success(());
    }

    /** ConvertFrom never fails; the one-shot-run fields keep whatever the receiver had. */
    method ConvertFrom(sh: Shape, src: BetaTradeBot)
      requires TypedBeta(sh, src.View())
      modifies this
      ensures View() == FromBeta(sh, src.View(), old(View()))
      ensures meta == src.meta && spec.config == src.spec.configRef && spec.strategy == src.spec.strategyRef
      ensures spec.updateStrategy == src.spec.updateStrategy && status == src.status.(bot := status.bot)
      ensures spec.freqtradeCommand == old(spec.freqtradeCommand) && spec.data == old(spec.data)
      ensures spec.freqtradeArguments == old(spec.freqtradeArguments)
    {
      meta := src.meta;
      spec := spec.(config := src.spec.configRef, strategy := src.spec.strategyRef,
                    updateStrategy := src.spec.updateStrategy);
      if src.spec.app.Some? { spec := spec.(app := Some(ConvertJSON(sh.app, src.spec.app.value))); }
      if src.spec.introspection.Some? {
        spec := spec.(introspection := Some(ConvertJSON(sh.introspection, src.spec.introspection.value)));
      }
      status := src.status.(bot := status.bot);
      if src.status.bot.Some? { status := status.(bot := Some(ConvertJSON(sh.bot, src.status.bot.value))); }
    }
  }

  /** The nine fields of a bot status, copied one by one into a new struct. */
  function CopyBot(bot: Option<Value>): (c: Option<Value>)
    requires TypedOption(BOT_TYPE, bot)
    ensures c == bot
  {
    if bot.None? then None
    else
      var v := bot.value.values;
      var c := StructOf([v[0], v[1], v[2], v[3], v[4], v[5], v[6], v[7], v[8]]);
      assert |v| == |BOT_TYPE.fields| == 9;
      assert c.values == v;
      Some(c)
  }

  method CopyStatusFromBeta(dst: AlphaTradeBot, src: BetaTradeBot)
    requires TypedOption(BOT_TYPE, src.status.bot)
    modifies dst`status
    ensures dst.status == src.status
  {
    dst.status := dst.status.(phase := src.status.phase, message := src.status.message,
                              conditions := src.status.conditions, observedGeneration := src.status.observedGeneration,
                              appliedConfigHash := src.status.appliedConfigHash,
                              resolvedImage := src.status.resolvedImage, bot := None);
    if src.status.bot.Some? { dst.status := dst.status.(bot := CopyBot(src.status.bot)); }
  }

  method CopyStatusToBeta(dst: BetaTradeBot, src: AlphaTradeBot)
    requires TypedOption(BOT_TYPE, src.status.bot)
    modifies dst`status
    ensures dst.status == src.status
  {
    dst.status := dst.status.(phase := src.status.phase, message := src.status.message,
                              conditions := src.status.conditions, observedGeneration := src.status.observedGeneration,
                              appliedConfigHash := src.status.appliedConfigHash,
                              resolvedImage := src.status.resolvedImage, bot := None);
    if src.status.bot.Some? { dst.status := dst.status.(bot := CopyBot(src.status.bot)); }
  }

  /** The closure patchTradeBotStatus gives to PatchStatus: a mutate written against the v1alpha1 object, run on the
      v1beta1 copy just read, acts on that copy's status exactly as it would directly, whatever the v1alpha1 object
      held before, and leaves metadata, spec and with it spec.state alone. */
  method MutateThroughBeta(tradeBot: AlphaTradeBot, beta: BetaTradeBot, mutate: Status -> Status)
    requires TypedOption(BOT_TYPE, beta.status.bot)
    requires forall s: Status :: TypedOption(BOT_TYPE, s.bot) ==> TypedOption(BOT_TYPE, mutate(s).bot)
    modifies tradeBot`status, beta`status
    ensures beta.View() == old(beta.View()).(status := mutate(old(beta.status)))
    ensures tradeBot.status == beta.status
  {
    CopyStatusFromBeta(tradeBot, beta);
    tradeBot.status := mutate(tradeBot.status);
    CopyStatusToBeta(beta, tradeBot);
  }
}
