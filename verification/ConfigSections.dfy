/** The builders of config.json's sections: each turns the optional fields of its part of a TradeBotConfig into entries
    under freqtrade's own key names. Text stands for its bytes, one char each, as in Go. */
module ConfigSections {
  import opened Wrappers
  import opened GoJson
  import opened CorsHosts

  /** A JSON object in the making. */
  type Section = map<string, Json>

  /** What a Secret holds; None when the spec names no Secret. */
  type Secret = Option<map<string, string>>

  /** strconv.ParseFloat: it accepts "NaN" and "Inf" too. */
  datatype Parsed = NotANumber | Finite(value: real) | NotFinite

  datatype BotConfig = BotConfig(
    botName: string, tradingMode: string, dryRun: Option<bool>, dryRunWallet: Option<real>, stakeCurrency: string,
    stakeAmount: string, maxOpenTrades: Option<int>, fiatDisplayCurrency: string, dbUrl: string, exportTo: string,
    disableParamExport: Option<bool>, disableDataframeChecks: Option<bool>)

  datatype DataConfig = DataConfig(
    dataformatOHLCV: string, dataformatTrades: string, positionAdjustment: string, newPairsDaysAgo: Option<int>,
    downloadTrades: Option<bool>, maxEntryPositionAdjustment: Option<real>, availableCapital: Option<real>,
    amendLastStakeAmount: Option<bool>, lastStakeAmountMinRatio: Option<real>, processOnlyNewCandles: Option<bool>,
    amountReservePercent: Option<real>, reduceDfFootprint: Option<bool>, customPriceMaxDistanceRatio: Option<real>)

  datatype AdvancedConfig = AdvancedConfig(
    tradableBalanceRatio: Option<real>, cancelOpenOrdersOnExit: Option<bool>, marginMode: string, initialState: string,
    forceEntryEnable: Option<bool>)

  datatype RiskManagement = RiskManagement(
    minimalROI: Option<Json>, stoploss: Option<real>, trailingStop: bool, trailingStopPositive: Option<real>,
    trailingStopPositiveOffset: Option<real>, trailingOnlyOffsetIsReached: bool, useExitSignal: bool,
    exitProfitOnly: bool, exitProfitOffset: Option<real>, fee: Option<real>, ignoreRoiIfEntrySignal: bool,
    ignoreBuyingExpiredCandleAfter: Option<int>, minimumTradeAmount: Option<int>, targetedTradeAmount: Option<int>,
    lookaheadAnalysisExportFilename: string, startupCandle: Option<Json>, liquidationBuffer: Option<real>,
    backtestBreakdown: Option<Json>)

  datatype APIServer = APIServer(
    enabled: Option<bool>, listenIP: string, listenPort: Option<int>, verbosity: string, enableOpenAPI: Option<bool>,
    username: string, password: string, jwtSecretKey: string, secretRef: string, corsOrigins: seq<string>)

  datatype Telegram = Telegram(secretRef: string, settings: Section)
  datatype Webhook = Webhook(enabled: Option<bool>, settings: Section)
  datatype Notification = Notification(telegram: Option<Telegram>, webhook: Option<Webhook>, discord: Option<Section>)
  datatype Exchange = Exchange(secretRef: string, settings: Section)

  // ---------- Filling a map key by key ----------

  function Put(m: Section, key: string, v: Option<Json>): Section {
    if v.None? then m else m[key := v.value]
  }

  /** The assignments one after another. */
  function PutAll(es: seq<(string, Option<Json>)>): Section {
    if es == [] then map[] else Put(PutAll(es[..|es| - 1]), es[|es| - 1].0, es[|es| - 1].1)
  }

  lemma {:induction false} PutAllKeys(es: seq<(string, Option<Json>)>, key: string)
    requires key in PutAll(es)
    ensures exists i :: 0 <= i < |es| && es[i].0 == key
  {
    var n := |es| - 1;
    if es[n].0 != key {
      PutAllKeys(es[..n], key);
      var i :| 0 <= i < n && es[..n][i].0 == key;
      assert es[i].0 == key;
    }
  }

  lemma PutAllStep(es: seq<(string, Option<Json>)>, i: nat)
    requires i < |es|
    ensures PutAll(es[..i + 1]) == Put(PutAll(es[..i]), es[i].0, es[i].1)
  {
    assert es[..i + 1][..i] == es[..i];
  }

  function OptText(s: string): Option<Json> {
    if s == "" then None else Some(JText(s))
  }

  function OptFlag(b: Option<bool>): Option<Json> {
    if b.None? then None else Some(JFlag(b.value))
  }

  function OnlyTrue(b: bool): Option<Json> {
    if b then Some(JFlag(true)) else None
  }

  function OptReal(r: Option<real>): Option<Json> {
    if r.None? then None else Some(JNumber(r.value))
  }

  function OptInt(n: Option<int>): Option<Json> {
    if n.None? then None else Some(JNumber(n.value as real))
  }

  // ---------- The builders ----------

  function RenderStakeAmount(raw: string, parse: string -> Parsed): Json {
    if raw == "unlimited" then JText(raw)
    else
      match parse(raw)
      case Finite(f) => JNumber(f)
      case _ => JText(raw)
  }

  /** A stake amount that parses as NaN or an infinity is a float no JSON encoder takes. */
  predicate Unmarshalable(b: Option<BotConfig>, parse: string -> Parsed) {
    b.Some? && b.value.stakeAmount !in {"", "unlimited"} && parse(b.value.stakeAmount).NotFinite?
  }

  function BotEntries(b: BotConfig, name: string, parse: string -> Parsed): seq<(string, Option<Json>)> {
    [ ("bot_name", Some(JText(if b.botName == "" then name else b.botName))),
      ("trading_mode", OptText(b.tradingMode)),
      ("dry_run", OptFlag(b.dryRun)),
      ("dry_run_wallet", OptReal(b.dryRunWallet)),
      ("stake_currency", OptText(b.stakeCurrency)),
      ("stake_amount", if b.stakeAmount == "" then None else Some(RenderStakeAmount(b.stakeAmount, parse))),
      ("max_open_trades", OptInt(b.maxOpenTrades)),
      ("fiat_display_currency", OptText(b.fiatDisplayCurrency)),
      ("db_url", OptText(b.dbUrl)),
      ("export", OptText(b.exportTo)),
      ("disableparamexport", OptFlag(b.disableParamExport)),
      ("disable_dataframe_checks", OptFlag(b.disableDataframeChecks)) ]
  }

  function DataEntries(d: DataConfig): seq<(string, Option<Json>)> {
    [ ("dataformat_ohlcv", OptText(d.dataformatOHLCV)),
      ("dataformat_trades", OptText(d.dataformatTrades)),
      ("position_adjustment", OptText(d.positionAdjustment)),
      ("new_pairs_days", OptInt(d.newPairsDaysAgo)),
      ("download_trades", OptFlag(d.downloadTrades)),
      ("max_entry_position_adjustment", OptReal(d.maxEntryPositionAdjustment)),
      ("available_capital", OptReal(d.availableCapital)),
      ("amend_last_stake_amount", OptFlag(d.amendLastStakeAmount)),
      ("last_stake_amount_min_ratio", OptReal(d.lastStakeAmountMinRatio)),
      ("process_only_new_candles", OptFlag(d.processOnlyNewCandles)),
      ("amount_reserve_percent", OptReal(d.amountReservePercent)),
      ("reduce_df_footprint", OptFlag(d.reduceDfFootprint)),
      ("custom_price_max_distance_ratio", OptReal(d.customPriceMaxDistanceRatio)) ]
  }

  function AdvancedEntries(a: AdvancedConfig): seq<(string, Option<Json>)> {
    [ ("tradable_balance_ratio", OptReal(a.tradableBalanceRatio)),
      ("cancel_open_orders_on_exit", OnlyTrue(a.cancelOpenOrdersOnExit == Some(true))),
      ("margin_mode", OptText(a.marginMode)),
      ("initial_state", OptText(a.initialState)),
      ("force_entry_enable", OptFlag(a.forceEntryEnable)) ]
  }

  function RiskEntries(r: RiskManagement): seq<(string, Option<Json>)> {
    [ ("minimal_roi", r.minimalROI),
      ("stoploss", OptReal(r.stoploss)),
      ("trailing_stop", OnlyTrue(r.trailingStop)),
      ("trailing_stop_positive", OptReal(r.trailingStopPositive)),
      ("trailing_stop_positive_offset", OptReal(r.trailingStopPositiveOffset)),
      ("trailing_only_offset_is_reached", OnlyTrue(r.trailingOnlyOffsetIsReached)),
      ("use_exit_signal", OnlyTrue(r.useExitSignal)),
      ("exit_profit_only", OnlyTrue(r.exitProfitOnly)),
      ("exit_profit_offset", OptReal(r.exitProfitOffset)),
      ("fee", OptReal(r.fee)),
      ("ignore_roi_if_entry_signal", OnlyTrue(r.ignoreRoiIfEntrySignal)),
      ("ignore_buying_expired_candle_after", OptInt(r.ignoreBuyingExpiredCandleAfter)),
      ("minimum_trade_amount", OptInt(r.minimumTradeAmount)),
      ("targeted_trade_amount", OptInt(r.targetedTradeAmount)),
      ("lookahead_analysis_exportfilename", OptText(r.lookaheadAnalysisExportFilename)),
      ("startup_candle", r.startupCandle),
      ("liquidation_buffer", OptReal(r.liquidationBuffer)),
      ("backtest_breakdown", r.backtestBreakdown) ]
  }

  function Credential(creds: Secret, key: string): Option<Json> {
    if creds.Some? && key in creds.value then Some(JText(creds.value[key])) else None
  }

  function TextArray(xs: seq<string>): Json {
    JArray(seq(|xs|, i requires 0 <= i < |xs| => JText(xs[i])))
  }

  /** The api_server section: the Secret's credentials are written over the plaintext ones. */
  function APIServerEntries(a: APIServer, creds: Secret, key: string, extraCORS: seq<string>)
    : seq<(string, Option<Json>)>
  {
    var cors := AddNew(a.corsOrigins, extraCORS);
    [ ("enabled", OptFlag(a.enabled)),
      ("listen_ip_address", OptText(a.listenIP)),
      ("listen_port", OptInt(a.listenPort)),
      ("verbosity", OptText(a.verbosity)),
      ("enable_openapi", OptFlag(a.enableOpenAPI)),
      ("username", OptText(a.username)),
      ("password", OptText(a.password)),
      ("username", Credential(creds, "user")),
      ("password", Credential(creds, "password")),
      ("jwt_secret_key", OptText(key)),
      ("CORS_origins", if cors == [] then None else Some(TextArray(cors))) ]
  }

  /** telegram's own builder reads its Secret; webhook counts only when enabled. */
  function NotificationEntries(n: Notification, telegram: (Section, Secret) -> Section, secret: Secret)
    : seq<(string, Option<Json>)>
  {
    [ ("telegram", if n.telegram.None? then None else Some(JObject(telegram(n.telegram.value.settings, secret)))),
      ("webhook", if n.webhook.Some? && n.webhook.value.enabled == Some(true)
                  then Some(JObject(n.webhook.value.settings)) else None),
      ("discord", if n.discord.None? then None else Some(JObject(n.discord.value))) ]
  }

  /** One key for a whole section. */
  function Single(key: string, v: Option<Section>): Section {
    Put(map[], key, if v.None? then None else Some(JObject(v.value)))
  }

  /** A section that is left out when it has no entry at all. */
  function SingleIfAny(key: string, v: Option<Section>): Section {
    if v.Some? && v.value == map[] then map[] else Single(key, v)
  }

  /** The settings of buildAPIServerConfig, key by key. */
  method WriteAPIServerSettings(a: APIServer, creds: Secret, key: string, extraCORS: seq<string>)
    returns (cfg: Section)
    ensures cfg == PutAll(APIServerEntries(a, creds, key, extraCORS)[..7])
  {
    ghost var es := APIServerEntries(a, creds, key, extraCORS);
    cfg := map[];
    cfg := Put(cfg, "enabled", OptFlag(a.enabled));
    PutAllStep(es, 0);
    cfg := Put(cfg, "listen_ip_address", OptText(a.listenIP));
    PutAllStep(es, 1);
    cfg := Put(cfg, "listen_port", OptInt(a.listenPort));
    PutAllStep(es, 2);
    cfg := Put(cfg, "verbosity", OptText(a.verbosity));
    PutAllStep(es, 3);
    cfg := Put(cfg, "enable_openapi", OptFlag(a.enableOpenAPI));
    PutAllStep(es, 4);
    cfg := Put(cfg, "username", OptText(a.username));
    PutAllStep(es, 5);
    cfg := Put(cfg, "password", OptText(a.password));
    PutAllStep(es, 6);
    assert es[..0] == [];
  }

  /** buildAPIServerConfig: the settings, then what the Secret has, the key, and the origins. */
  method BuildAPIServerConfig(a: APIServer, creds: Secret, key: string, extraCORS: seq<string>) returns (cfg: Section)
    ensures cfg == PutAll(APIServerEntries(a, creds, key, extraCORS))
  {
    ghost var es := APIServerEntries(a, creds, key, extraCORS);
    cfg := WriteAPIServerSettings(a, creds, key, extraCORS);
    cfg := Put(cfg, "username", Credential(creds, "user"));
    PutAllStep(es, 7);
    cfg := Put(cfg, "password", Credential(creds, "password"));
    PutAllStep(es, 8);
    cfg := Put(cfg, "jwt_secret_key", OptText(key));
    PutAllStep(es, 9);
    var origins := MergeCORSOrigins(a.corsOrigins, extraCORS);
    cfg := Put(cfg, "CORS_origins", if |origins| > 0 then Some(TextArray(origins)) else None);
    PutAllStep(es, 10);
    assert es[..11] == es;
  }

  // ---------- No two builders write the same key ----------

  /** Length, first and last character: enough to tell all of freqtrade's top-level keys apart. */
  function Mark(key: string): (nat, char, char) {
    if key == "" then (0, ' ', ' ') else (|key|, key[0], key[|key| - 1])
  }

  const BOT_MARKS: set<(nat, char, char)> :=
    { (8, 'b', 'e'), (12, 't', 'e'), (7, 'd', 'n'), (14, 'd', 't'), (14, 's', 'y'), (12, 's', 't'), (15, 'm', 's'),
      (21, 'f', 'y'), (6, 'd', 'l'), (6, 'e', 't'), (18, 'd', 't'), (24, 'd', 's') }

  const DATA_MARKS: set<(nat, char, char)> :=
    { (16, 'd', 'v'), (17, 'd', 's'), (19, 'p', 't'), (14, 'n', 's'), (15, 'd', 's'), (29, 'm', 't'), (17, 'a', 'l'),
      (23, 'a', 't'), (27, 'l', 'o'), (24, 'p', 's'), (22, 'a', 't'), (19, 'r', 't'), (31, 'c', 'o') }

  const ADVANCED_MARKS: set<(nat, char, char)> :=
    { (22, 't', 'o'), (26, 'c', 't'), (11, 'm', 'e'), (13, 'i', 'e'), (18, 'f', 'e') }

  const RISK_MARKS: set<(nat, char, char)> :=
    { (11, 'm', 'i'), (8, 's', 's'), (13, 't', 'p'), (22, 't', 'e'), (29, 't', 't'), (31, 't', 'd'), (15, 'u', 'l'),
      (16, 'e', 'y'), (18, 'e', 't'), (3, 'f', 'e'), (26, 'i', 'l'), (34, 'i', 'r'), (20, 'm', 't'), (21, 't', 't'),
      (33, 'l', 'e'), (14, 's', 'e'), (18, 'l', 'r'), (18, 'b', 'n') }

  const NOTIFICATION_MARKS: set<(nat, char, char)> := { (8, 't', 'm'), (7, 'w', 'k'), (7, 'd', 'd') }

  lemma BotMarked(b: BotConfig, name: string, parse: string -> Parsed, key: string)
    requires key in PutAll(BotEntries(b, name, parse))
    ensures Mark(key) in BOT_MARKS
  {
    var es := BotEntries(b, name, parse);
    PutAllKeys(es, key);
    forall i | 0 <= i < |es| ensures Mark(es[i].0) in BOT_MARKS {}
  }

  lemma DataMarked(d: DataConfig, key: string)
    requires key in PutAll(DataEntries(d))
    ensures Mark(key) in DATA_MARKS
  {
    var es := DataEntries(d);
    PutAllKeys(es, key);
    forall i | 0 <= i < |es| ensures Mark(es[i].0) in DATA_MARKS {}
  }

  lemma AdvancedMarked(a: AdvancedConfig, key: string)
    requires key in PutAll(AdvancedEntries(a))
    ensures Mark(key) in ADVANCED_MARKS
  {
    var es := AdvancedEntries(a);
    PutAllKeys(es, key);
    forall i | 0 <= i < |es| ensures Mark(es[i].0) in ADVANCED_MARKS {}
  }

  lemma RiskMarked(r: RiskManagement, key: string)
    requires key in PutAll(RiskEntries(r))
    ensures Mark(key) in RISK_MARKS
  {
    var es := RiskEntries(r);
    PutAllKeys(es, key);
    forall i | 0 <= i < |es| ensures Mark(es[i].0) in RISK_MARKS {}
  }

  lemma NotificationMarked(n: Notification, telegram: (Section, Secret) -> Section, secret: Secret, key: string)
    requires key in PutAll(NotificationEntries(n, telegram, secret))
    ensures Mark(key) in NOTIFICATION_MARKS
  {
    var es := NotificationEntries(n, telegram, secret);
    PutAllKeys(es, key);
    forall i | 0 <= i < |es| ensures Mark(es[i].0) in NOTIFICATION_MARKS {}
  }

  /** The key under jwt_secret_key is the one passed in: no other entry of the section touches it. */
  lemma KeyInSection(a: APIServer, creds: Secret, key: string, extraCORS: seq<string>)
    ensures var m := PutAll(APIServerEntries(a, creds, key, extraCORS));
            if key == "" then "jwt_secret_key" !in m
            else "jwt_secret_key" in m && m["jwt_secret_key"] == JText(key)
  {
    var es := APIServerEntries(a, creds, key, extraCORS);
    PutAllStep(es, 10);
    PutAllStep(es, 9);
    assert es[..11] == es;
    assert Mark("CORS_origins") != Mark("jwt_secret_key");
    forall i | 0 <= i < 9 ensures es[..9][i].0 != "jwt_secret_key" { assert Mark(es[i].0) != Mark("jwt_secret_key"); }
    if "jwt_secret_key" in PutAll(es[..9]) { PutAllKeys(es[..9], "jwt_secret_key"); }
  }

  // ---------- What each section says ----------

  /** The entry at k, or its absence, is what the spec's value asks for. */
  predicate At(m: Section, k: string, v: Option<Json>) {
    if v.None? then k !in m else k in m && m[k] == v.value
  }

  predicate TextAt(m: Section, k: string, v: string) {
    if v == "" then k !in m else k in m && m[k] == JText(v)
  }

  predicate FlagAt(m: Section, k: string, v: Option<bool>) {
    if v.None? then k !in m else k in m && m[k] == JFlag(v.value)
  }

  predicate TrueAt(m: Section, k: string, v: bool) {
    if v then k in m && m[k] == JFlag(true) else k !in m
  }

  predicate RealAt(m: Section, k: string, v: Option<real>) {
    if v.None? then k !in m else k in m && m[k] == JNumber(v.value)
  }

  predicate IntAt(m: Section, k: string, v: Option<int>) {
    if v.None? then k !in m else k in m && m[k] == JNumber(v.value as real)
  }

  /** The last assignment to a key decides, unless it assigned nothing. */
  lemma {:induction false} LastPutDecides(es: seq<(string, Option<Json>)>, i: nat)
    requires i < |es| && forall j :: i < j < |es| ==> es[j].0 != es[i].0
    ensures At(PutAll(es), es[i].0, if es[i].1.Some? then es[i].1
                                    else if es[i].0 in PutAll(es[..i]) then Some(PutAll(es[..i])[es[i].0]) else None)
  {
    var n := |es| - 1;
    if i < n {
      LastPutDecides(es[..n], i);
      assert es[..n][..i] == es[..i];
    }
  }

  /** Keys told apart by a numbering are all as they were put. */
  lemma {:induction false} EachAsPut(es: seq<(string, Option<Json>)>, number: string -> int, i: nat)
    requires i < |es| && forall j :: 0 <= j < |es| ==> number(es[j].0) == j
    ensures At(PutAll(es), es[i].0, es[i].1)
  {
    LastPutDecides(es, i);
    if es[i].0 in PutAll(es[..i]) { PutAllKeys(es[..i], es[i].0); }
  }

  function BotNumber(k: string): int {
    match |k|
    case 8 => 0
    case 12 => if k[0] == 't' then 1 else 5
    case 7 => 2
    case 14 => if k[0] == 'd' then 3 else 4
    case 15 => 6
    case 21 => 7
    case 6 => if k[0] == 'd' then 8 else 9
    case 18 => 10
    case 24 => 11
    case _ => -1
  }

  /** The bot section, entry by entry. A stake amount is "unlimited", a number, or passed on as it is. */
  lemma {:induction false} BotSays(b: BotConfig, name: string, parse: string -> Parsed)
    ensures
      var m := PutAll(BotEntries(b, name, parse));
      && At(m, "bot_name", Some(JText(if b.botName == "" then name else b.botName)))
      && TextAt(m, "trading_mode", b.tradingMode) && FlagAt(m, "dry_run", b.dryRun)
      && RealAt(m, "dry_run_wallet", b.dryRunWallet) && TextAt(m, "stake_currency", b.stakeCurrency)
      && (b.stakeAmount == "" ==> "stake_amount" !in m)
      && (b.stakeAmount != "" && b.stakeAmount != "unlimited" && parse(b.stakeAmount).Finite? ==>
            At(m, "stake_amount", Some(JNumber(parse(b.stakeAmount).value))))
      && (b.stakeAmount == "unlimited" || (b.stakeAmount != "" && !parse(b.stakeAmount).Finite?) ==>
            TextAt(m, "stake_amount", b.stakeAmount))
      && IntAt(m, "max_open_trades", b.maxOpenTrades)
      && TextAt(m, "fiat_display_currency", b.fiatDisplayCurrency) && TextAt(m, "db_url", b.dbUrl)
      && TextAt(m, "export", b.exportTo) && FlagAt(m, "disableparamexport", b.disableParamExport)
      && FlagAt(m, "disable_dataframe_checks", b.disableDataframeChecks)
  {
    var es := BotEntries(b, name, parse);
    forall i | 0 <= i < 12 ensures At(PutAll(es), es[i].0, es[i].1) { EachAsPut(es, BotNumber, i); }
    assert At(PutAll(es), es[0].0, es[0].1) && At(PutAll(es), es[1].0, es[1].1) && At(PutAll(es), es[2].0, es[2].1);
    assert At(PutAll(es), es[3].0, es[3].1) && At(PutAll(es), es[4].0, es[4].1) && At(PutAll(es), es[5].0, es[5].1);
    assert At(PutAll(es), es[6].0, es[6].1) && At(PutAll(es), es[7].0, es[7].1) && At(PutAll(es), es[8].0, es[8].1);
    assert At(PutAll(es), es[9].0, es[9].1) && At(PutAll(es), es[10].0, es[10].1) && At(PutAll(es), es[11].0, es[11].1);
  }

  function DataNumber(k: string): int {
    match |k|
    case 16 => 0
    case 17 => if k[0] == 'd' then 1 else 6
    case 19 => if k[0] == 'p' then 2 else 11
    case 14 => 3
    case 15 => 4
    case 29 => 5
    case 23 => 7
    case 27 => 8
    case 24 => 9
    case 22 => 10
    case 31 => 12
    case _ => -1
  }

  lemma {:induction false} DataEach(d: DataConfig)
    ensures var es := DataEntries(d); forall i :: 0 <= i < |es| ==> At(PutAll(es), es[i].0, es[i].1)
  {
    var es := DataEntries(d);
    assert forall i :: 0 <= i < |es| ==> DataNumber(es[i].0) == i;
    forall i | 0 <= i < |es| ensures At(PutAll(es), es[i].0, es[i].1) { EachAsPut(es, DataNumber, i); }
  }

  lemma {:induction false} DataSays(d: DataConfig)
    ensures
      var m := PutAll(DataEntries(d));
      && TextAt(m, "dataformat_ohlcv", d.dataformatOHLCV) && TextAt(m, "dataformat_trades", d.dataformatTrades)
      && TextAt(m, "position_adjustment", d.positionAdjustment) && IntAt(m, "new_pairs_days", d.newPairsDaysAgo)
      && FlagAt(m, "download_trades", d.downloadTrades)
      && RealAt(m, "max_entry_position_adjustment", d.maxEntryPositionAdjustment)
      && RealAt(m, "available_capital", d.availableCapital)
  {
    var es := DataEntries(d);
    var m := PutAll(es);
    DataEach(d);
    assert At(m, es[0].0, es[0].1) && At(m, es[1].0, es[1].1) && At(m, es[2].0, es[2].1);
    assert At(m, es[3].0, es[3].1) && At(m, es[4].0, es[4].1) && At(m, es[5].0, es[5].1);
    assert At(m, es[6].0, es[6].1);
  }

  lemma {:induction false} DataSaysMore(d: DataConfig)
    ensures
      var m := PutAll(DataEntries(d));
      && FlagAt(m, "amend_last_stake_amount", d.amendLastStakeAmount)
      && RealAt(m, "last_stake_amount_min_ratio", d.lastStakeAmountMinRatio)
      && FlagAt(m, "process_only_new_candles", d.processOnlyNewCandles)
      && RealAt(m, "amount_reserve_percent", d.amountReservePercent)
      && FlagAt(m, "reduce_df_footprint", d.reduceDfFootprint)
      && RealAt(m, "custom_price_max_distance_ratio", d.customPriceMaxDistanceRatio)
  {
    var es := DataEntries(d);
    var m := PutAll(es);
    DataEach(d);
    assert At(m, es[7].0, es[7].1) && At(m, es[8].0, es[8].1) && At(m, es[9].0, es[9].1);
    assert At(m, es[10].0, es[10].1) && At(m, es[11].0, es[11].1) && At(m, es[12].0, es[12].1);
  }

  lemma {:induction false} AdvancedSays(a: AdvancedConfig)
    ensures
      var m := PutAll(AdvancedEntries(a));
      && RealAt(m, "tradable_balance_ratio", a.tradableBalanceRatio)
      && TrueAt(m, "cancel_open_orders_on_exit", a.cancelOpenOrdersOnExit == Some(true))
      && TextAt(m, "margin_mode", a.marginMode) && TextAt(m, "initial_state", a.initialState)
      && FlagAt(m, "force_entry_enable", a.forceEntryEnable)
  {
    var es := AdvancedEntries(a);
    var m := PutAll(es);
    var number := (k: string) =>
      match |k| case 22 => 0 case 26 => 1 case 11 => 2 case 13 => 3 case 18 => 4 case _ => -1;
    forall i | 0 <= i < 5 ensures At(m, es[i].0, es[i].1) { EachAsPut(es, number, i); }
    assert At(m, es[0].0, es[0].1) && At(m, es[1].0, es[1].1) && At(m, es[2].0, es[2].1);
    assert At(m, es[3].0, es[3].1) && At(m, es[4].0, es[4].1);
  }

  function RiskNumber(k: string): int {
    match |k|
    case 11 => 0
    case 8 => 1
    case 13 => 2
    case 22 => 3
    case 29 => 4
    case 31 => 5
    case 15 => 6
    case 16 => 7
    case 18 => if k[0] == 'e' then 8 else if k[0] == 'l' then 16 else 17
    case 3 => 9
    case 26 => 10
    case 34 => 11
    case 20 => 12
    case 21 => 13
    case 33 => 14
    case 14 => 15
    case _ => -1
  }

  lemma {:induction false} RiskEach(r: RiskManagement)
    ensures var es := RiskEntries(r); forall i :: 0 <= i < |es| ==> At(PutAll(es), es[i].0, es[i].1)
  {
    var es := RiskEntries(r);
    assert forall i :: 0 <= i < |es| ==> RiskNumber(es[i].0) == i;
    forall i | 0 <= i < |es| ensures At(PutAll(es), es[i].0, es[i].1) { EachAsPut(es, RiskNumber, i); }
  }

  /** The risk section; the switches are written only when they are on. */
  lemma {:induction false} RiskSays(r: RiskManagement)
    ensures
      var m := PutAll(RiskEntries(r));
      && At(m, "minimal_roi", r.minimalROI) && RealAt(m, "stoploss", r.stoploss)
      && TrueAt(m, "trailing_stop", r.trailingStop) && RealAt(m, "trailing_stop_positive", r.trailingStopPositive)
      && RealAt(m, "trailing_stop_positive_offset", r.trailingStopPositiveOffset)
      && TrueAt(m, "trailing_only_offset_is_reached", r.trailingOnlyOffsetIsReached)
      && TrueAt(m, "use_exit_signal", r.useExitSignal) && TrueAt(m, "exit_profit_only", r.exitProfitOnly)
      && RealAt(m, "exit_profit_offset", r.exitProfitOffset) && RealAt(m, "fee", r.fee)
      && TrueAt(m, "ignore_roi_if_entry_signal", r.ignoreRoiIfEntrySignal)
      && IntAt(m, "ignore_buying_expired_candle_after", r.ignoreBuyingExpiredCandleAfter)
      && IntAt(m, "minimum_trade_amount", r.minimumTradeAmount)
      && IntAt(m, "targeted_trade_amount", r.targetedTradeAmount)
      && TextAt(m, "lookahead_analysis_exportfilename", r.lookaheadAnalysisExportFilename)
      && At(m, "startup_candle", r.startupCandle) && RealAt(m, "liquidation_buffer", r.liquidationBuffer)
      && At(m, "backtest_breakdown", r.backtestBreakdown)
  {
    var es := RiskEntries(r);
    var m := PutAll(es);
    RiskEach(r);
    assert At(m, es[0].0, es[0].1) && At(m, es[1].0, es[1].1) && At(m, es[2].0, es[2].1);
    assert At(m, es[3].0, es[3].1) && At(m, es[4].0, es[4].1) && At(m, es[5].0, es[5].1);
    assert At(m, es[6].0, es[6].1) && At(m, es[7].0, es[7].1) && At(m, es[8].0, es[8].1);
    assert At(m, es[9].0, es[9].1) && At(m, es[10].0, es[10].1) && At(m, es[11].0, es[11].1);
    assert At(m, es[12].0, es[12].1) && At(m, es[13].0, es[13].1) && At(m, es[14].0, es[14].1);
    assert At(m, es[15].0, es[15].1) && At(m, es[16].0, es[16].1) && At(m, es[17].0, es[17].1);
  }

  /** Notifications: telegram as its own builder makes it of settings and Secret, webhook only when enabled. */
  lemma {:induction false} NotificationSays(n: Notification, telegram: (Section, Secret) -> Section, secret: Secret)
    ensures
      var m := PutAll(NotificationEntries(n, telegram, secret));
      && At(m, "telegram", if n.telegram.Some? then Some(JObject(telegram(n.telegram.value.settings, secret)))
                           else None)
      && At(m, "webhook", if n.webhook.Some? && n.webhook.value.enabled == Some(true)
                          then Some(JObject(n.webhook.value.settings)) else None)
      && At(m, "discord", if n.discord.Some? then Some(JObject(n.discord.value)) else None)
  {
    var es := NotificationEntries(n, telegram, secret);
    var m := PutAll(es);
    var number := (k: string) => if |k| == 8 then 0 else if |k| == 7 then if k[0] == 'w' then 1 else 2 else -1;
    forall i | 0 <= i < 3 ensures At(m, es[i].0, es[i].1) { EachAsPut(es, number, i); }
    assert At(m, es[0].0, es[0].1) && At(m, es[1].0, es[1].1) && At(m, es[2].0, es[2].1);
  }

  // ---------- The API server's section ----------

  lemma {:induction false} APIServerAt(a: APIServer, creds: Secret, key: string, extraCORS: seq<string>, i: nat)
    requires i < 11 && i !in {5, 6, 7, 8}
    ensures var es := APIServerEntries(a, creds, key, extraCORS); At(PutAll(es), es[i].0, es[i].1)
  {
    var es := APIServerEntries(a, creds, key, extraCORS);
    forall j | 0 <= j < 11 && j != i ensures es[j].0 != es[i].0 { assert Mark(es[j].0) != Mark(es[i].0); }
    LastPutDecides(es, i);
    if es[i].0 in PutAll(es[..i]) { PutAllKeys(es[..i], es[i].0); }
  }

  /** The Secret's user and password win over the plaintext ones, whatever they are; a Secret without them leaves
      those. */
  lemma {:induction false} SecretWins(a: APIServer, creds: Secret, key: string, extraCORS: seq<string>)
    ensures
      var m := PutAll(APIServerEntries(a, creds, key, extraCORS));
      && (if creds.Some? && "user" in creds.value then At(m, "username", Some(JText(creds.value["user"])))
          else TextAt(m, "username", a.username))
      && (if creds.Some? && "password" in creds.value then At(m, "password", Some(JText(creds.value["password"])))
          else TextAt(m, "password", a.password))
  {
    var es := APIServerEntries(a, creds, key, extraCORS);
    assert Mark("username") != Mark("password") && Mark("username") != Mark("jwt_secret_key");
    assert Mark("username") != Mark("CORS_origins") && Mark("password") != Mark("jwt_secret_key");
    assert Mark("password") != Mark("CORS_origins");
    LastPutDecides(es, 7);
    LastPutDecides(es, 8);
    LastPutDecides(es[..7], 5);
    LastPutDecides(es[..8], 6);
    assert es[..7][..5] == es[..5] && es[..8][..6] == es[..6];
    forall i | 0 <= i < 5 ensures es[i].0 != "username" && es[i].0 != "password" {
      assert Mark(es[i].0) != Mark("username") && Mark(es[i].0) != Mark("password");
    }
    if "username" in PutAll(es[..5]) { PutAllKeys(es[..5], "username"); }
    if "password" in PutAll(es[..6]) { PutAllKeys(es[..6], "password"); }
  }

  /** The rest of the section; the origins are the user's own, in place, and the collected ones, nothing else. */
  lemma {:induction false} APIServerSays(a: APIServer, creds: Secret, key: string, extraCORS: seq<string>)
    ensures
      var m := PutAll(APIServerEntries(a, creds, key, extraCORS));
      && FlagAt(m, "enabled", a.enabled) && TextAt(m, "listen_ip_address", a.listenIP)
      && IntAt(m, "listen_port", a.listenPort) && TextAt(m, "verbosity", a.verbosity)
      && FlagAt(m, "enable_openapi", a.enableOpenAPI) && TextAt(m, "jwt_secret_key", key)
      && ("CORS_origins" in m <==> a.corsOrigins + extraCORS != [])
      && ("CORS_origins" in m ==>
            && m["CORS_origins"].JArray? && |a.corsOrigins| <= |m["CORS_origins"].items|
            && (forall i :: 0 <= i < |a.corsOrigins| ==> m["CORS_origins"].items[i] == JText(a.corsOrigins[i]))
            && forall j :: j in m["CORS_origins"].items <==>
                 j.JText? && (j.text in a.corsOrigins || j.text in extraCORS))
  {
    var es, cors := APIServerEntries(a, creds, key, extraCORS), AddNew(a.corsOrigins, extraCORS);
    var m := PutAll(es);
    forall i | 0 <= i < 11 && i !in {5, 6, 7, 8} ensures At(m, es[i].0, es[i].1) {
      APIServerAt(a, creds, key, extraCORS, i);
    }
    assert At(m, es[0].0, es[0].1) && At(m, es[1].0, es[1].1) && At(m, es[2].0, es[2].1);
    assert At(m, es[3].0, es[3].1) && At(m, es[4].0, es[4].1) && At(m, es[9].0, es[9].1);
    assert At(m, es[10].0, es[10].1);
    AddNewExactly(a.corsOrigins, extraCORS);
    ListedTexts(cors);
    if a.corsOrigins != [] { assert a.corsOrigins[0] in cors; }
    if extraCORS != [] { assert extraCORS[0] in cors; }
    if cors != [] { assert cors[0] in a.corsOrigins || cors[0] in extraCORS; }
  }

  lemma {:induction false} ListedTexts(xs: seq<string>)
    ensures TextArray(xs).JArray? && |TextArray(xs).items| == |xs|
    ensures forall j :: j in TextArray(xs).items <==> j.JText? && j.text in xs
  {
    forall j: Json | j.JText? && j.text in xs ensures j in TextArray(xs).items {
      var i :| 0 <= i < |xs| && xs[i] == j.text;
      assert TextArray(xs).items[i] == j;
    }
  }
}
