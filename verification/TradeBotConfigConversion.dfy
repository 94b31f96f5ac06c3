/** TradeBotConfig between its two API versions: which objects convert, and what both round trips keep. */
module TradeBotConfigConversion {
  import opened Wrappers
  import opened Conditions
  import opened GoJson

  /** The spec sections that look the same in both versions and go through the JSON pass as a whole. */
  datatype Section =
    | Bot | AI | Data | Advanced | Timeout | Internals | Pairlist | PairlistMethod | EntryPricing | ExitPricing
    | Order | RiskManagement | Experimental | Logging

  /** The Go types behind the JSON passes. */
  datatype Shape = Shape(section: Section -> Type, pairs: Type, settings: Type, webhook: Type, discord: Type)
  {
    ghost predicate Ok() {
      && (forall s :: WellFormed(section(s)))
      && WellFormed(pairs) && WellFormed(settings) && WellFormed(webhook) && WellFormed(discord)
    }
  }

  datatype Meta = Meta(name: string, namespace: string, annotations: map<string, string>, deleting: bool)

  datatype Status = Status(phase: string, message: string, conditions: seq<Condition>, observedGeneration: int)

  datatype LocalObjectReference = LocalObjectReference(name: string)

  /** The exchange settings both versions name alike; ccxt holds the three raw ccxt_* documents. */
  datatype ExchangeCommon = ExchangeCommon(
    name: string, accountID: string, ccxt: seq<string>, logResponses: Option<bool>, enableWS: Option<bool>,
    outdatedOffset: Option<int>, marketRefreshInterval: Option<int>)

  datatype AlphaExchange = AlphaExchange(
    common: ExchangeCommon, key: string, secret: string, password: string, uid: string, walletAddress: string,
    privateKey: string, secretRef: string, whitelist: Option<Value>, blacklist: Option<Value>,
    unkownFeeRate: Option<bool>)

  datatype BetaExchange = BetaExchange(
    common: ExchangeCommon, secretRef: LocalObjectReference, whitelist: Option<Value>, blacklist: Option<Value>,
    unknownFeeRate: Option<bool>)

  datatype APIServerCommon = APIServerCommon(
    enabled: Option<bool>, listenIP: string, listenPort: Option<int>, verbosity: string, enableOpenAPI: Option<bool>,
    username: string, corsOrigins: seq<string>)

  datatype AlphaAPIServer = AlphaAPIServer(
    common: APIServerCommon, password: string, jwtSecretKey: string, secretRef: string)

  datatype BetaAPIServer = BetaAPIServer(common: APIServerCommon, secretRef: LocalObjectReference)

  datatype TelegramCommon = TelegramCommon(
    enabled: Option<bool>, balanceDustLevel: Option<real>, reload: Option<bool>, allowCustomMessages: Option<bool>,
    chatID: string, topicID: string, authorizedUsers: seq<string>)

  datatype AlphaTelegram = AlphaTelegram(
    common: TelegramCommon, token: string, secretRef: string, settings: Option<Value>)

  datatype BetaTelegram = BetaTelegram(
    common: TelegramCommon, secretRef: LocalObjectReference, settings: Option<Value>)

  datatype Notification<T> = Notification(telegram: Option<T>, webhook: Option<Value>, discord: Option<Value>)

  datatype Config<E, A, T> = Config(
    meta: Meta, sections: map<Section, Value>, exchange: Option<E>, apiServer: Option<A>,
    notification: Option<Notification<T>>, status: Status)

  type Alpha = Config<AlphaExchange, AlphaAPIServer, AlphaTelegram>
  type Beta = Config<BetaExchange, BetaAPIServer, BetaTelegram>

  const NO_META := Meta("", "", map[], false)
  const NO_STATUS := Status("", "", [], 0)
  const EMPTY_ALPHA: Alpha := Config(NO_META, map[], None, None, None, NO_STATUS)
  const EMPTY_BETA: Beta := Config(NO_META, map[], None, None, None, NO_STATUS)

  ghost predicate TypedSections(sh: Shape, sections: map<Section, Value>) {
    forall s :: s in sections ==> HasType(sh.section(s), sections[s])
  }

  ghost predicate TypedNotification<T>(sh: Shape, n: Option<Notification<T>>) {
    n.Some? ==> TypedOption(sh.webhook, n.value.webhook) && TypedOption(sh.discord, n.value.discord)
  }

  ghost predicate TypedAlpha(sh: Shape, a: Alpha) {
    && sh.Ok() && TypedSections(sh, a.sections) && TypedNotification(sh, a.notification)
    && (a.exchange.Some? ==>
          TypedOption(sh.pairs, a.exchange.value.whitelist) && TypedOption(sh.pairs, a.exchange.value.blacklist))
    && (a.notification.Some? && a.notification.value.telegram.Some? ==>
          TypedOption(sh.settings, a.notification.value.telegram.value.settings))
  }

  ghost predicate TypedBeta(sh: Shape, b: Beta) {
    && sh.Ok() && TypedSections(sh, b.sections) && TypedNotification(sh, b.notification)
    && (b.exchange.Some? ==>
          TypedOption(sh.pairs, b.exchange.value.whitelist) && TypedOption(sh.pairs, b.exchange.value.blacklist))
    && (b.notification.Some? && b.notification.value.telegram.Some? ==>
          TypedOption(sh.settings, b.notification.value.telegram.value.settings))
  }

  // ---------- Credentials ----------

  /** The dotted spec paths of the deprecated plaintext credentials. */
  datatype Path =
    | ExchangeKey | ExchangeSecret | ExchangePassword | ExchangeUID | ExchangeWalletAddress | ExchangePrivateKey
    | APIServerPassword | APIServerJWTSecretKey | TelegramToken

  type Credential = (Path, string)

  function ExchangeCredentials(e: Option<AlphaExchange>): seq<Credential> {
    if e.None? then []
    else
      [(ExchangeKey, e.value.key), (ExchangeSecret, e.value.secret), (ExchangePassword, e.value.password),
       (ExchangeUID, e.value.uid), (ExchangeWalletAddress, e.value.walletAddress),
       (ExchangePrivateKey, e.value.privateKey)]
  }

  function APIServerCredentials(a: Option<AlphaAPIServer>): seq<Credential> {
    if a.None? then [] else [(APIServerPassword, a.value.password), (APIServerJWTSecretKey, a.value.jwtSecretKey)]
  }

  function TelegramCredentials(n: Option<Notification<AlphaTelegram>>): seq<Credential> {
    if n.None? || n.value.telegram.None? then [] else [(TelegramToken, n.value.telegram.value.token)]
  }

  function Credentials(a: Alpha): seq<Credential> {
    ExchangeCredentials(a.exchange) + APIServerCredentials(a.apiServer) + TelegramCredentials(a.notification)
  }

  predicate BareExchange(e: AlphaExchange) {
    e.key == "" && e.secret == "" && e.password == "" && e.uid == "" && e.walletAddress == "" && e.privateKey == ""
  }

  /** No plaintext credential is set. */
  predicate Bare(a: Alpha) {
    && (a.exchange.Some? ==> BareExchange(a.exchange.value))
    && (a.apiServer.Some? ==> a.apiServer.value.password == "" && a.apiServer.value.jwtSecretKey == "")
    && (a.notification.Some? && a.notification.value.telegram.Some? ==> a.notification.value.telegram.value.token == "")
  }

  function SetPaths(cs: seq<Credential>): seq<Path> {
    if cs == [] then []
    else SetPaths(cs[..|cs| - 1]) + (if cs[|cs| - 1].1 != "" then [cs[|cs| - 1].0] else [])
  }

  lemma {:induction false} SetPathsExactly(cs: seq<Credential>, path: Path)
    ensures path in SetPaths(cs) <==> exists c :: c in cs && c.0 == path && c.1 != ""
    ensures SetPaths(cs) == [] <==> forall c :: c in cs ==> c.1 == ""
  {
    if cs != [] {
      var n := |cs| - 1;
      SetPathsExactly(cs[..n], path);
      assert cs == cs[..n] + [cs[n]];
    }
  }

  lemma {:induction false} SetPathsSplit(cs: seq<Credential>, ds: seq<Credential>)
    ensures SetPaths(cs + ds) == SetPaths(cs) + SetPaths(ds)
  {
    if ds == [] {
      assert cs + ds == cs;
    } else {
      var n := |ds| - 1;
      SetPathsSplit(cs, ds[..n]);
      assert (cs + ds)[..|cs + ds| - 1] == cs + ds[..n];
    }
  }

  lemma {:induction false} NoneSet(cs: seq<Credential>)
    ensures SetPaths(cs) == [] <==> forall i :: 0 <= i < |cs| ==> cs[i].1 == ""
  {
    if cs != [] {
      var n := |cs| - 1;
      NoneSet(cs[..n]);
      assert SetPaths(cs) == [] <==> SetPaths(cs[..n]) == [] && cs[n].1 == "";
      assert forall i :: 0 <= i < n ==> cs[..n][i] == cs[i];
    }
  }

  lemma ExchangeNoneSet(e: AlphaExchange)
    ensures SetPaths(ExchangeCredentials(Some(e))) == []
       <==> BareExchange(e)
  {
    var cs := ExchangeCredentials(Some(e));
    NoneSet(cs);
    assert cs[0].1 == e.key && cs[1].1 == e.secret && cs[2].1 == e.password;
    assert cs[3].1 == e.uid && cs[4].1 == e.walletAddress && cs[5].1 == e.privateKey;
  }

  lemma APIServerPaths(a: AlphaAPIServer)
    ensures SetPaths(APIServerCredentials(Some(a)))
         == (if a.password != "" then [APIServerPassword] else [])
            + (if a.jwtSecretKey != "" then [APIServerJWTSecretKey] else [])
  {
    SetPathsOne([], (APIServerPassword, a.password));
    SetPathsOne([(APIServerPassword, a.password)], (APIServerJWTSecretKey, a.jwtSecretKey));
    assert [] + [(APIServerPassword, a.password)] == [(APIServerPassword, a.password)];
    assert APIServerCredentials(Some(a))
        == [(APIServerPassword, a.password)] + [(APIServerJWTSecretKey, a.jwtSecretKey)];
  }

  lemma {:induction false} TelegramPaths(n: Option<Notification<AlphaTelegram>>)
    ensures SetPaths(TelegramCredentials(n))
         == if n.Some? && n.value.telegram.Some? && n.value.telegram.value.token != "" then [TelegramToken] else []
  {
    if n.Some? && n.value.telegram.Some? {
      SetPathsOne([], (TelegramToken, n.value.telegram.value.token));
      assert TelegramCredentials(n) == [] + [(TelegramToken, n.value.telegram.value.token)];
    }
  }

  /** The paths of the three parts, one after the other. */
  lemma {:induction false} PathsByPart(a: Alpha)
    ensures SetPaths(Credentials(a))
         == SetPaths(ExchangeCredentials(a.exchange))
            + SetPaths(APIServerCredentials(a.apiServer)) + SetPaths(TelegramCredentials(a.notification))
  {
    SetPathsSplit(ExchangeCredentials(a.exchange), APIServerCredentials(a.apiServer));
    SetPathsSplit(
      ExchangeCredentials(a.exchange) + APIServerCredentials(a.apiServer), TelegramCredentials(a.notification));
  }

  lemma {:induction false} BareHasNoSetPath(a: Alpha)
    ensures Bare(a) <==> SetPaths(Credentials(a)) == []
  {
    PathsByPart(a);
    if a.exchange.Some? { ExchangeNoneSet(a.exchange.value); }
    if a.apiServer.Some? { APIServerPaths(a.apiServer.value); }
    TelegramPaths(a.notification);
  }

  /** The credential a path stands for, "" where its section is missing. */
  function At(a: Alpha, path: Path): string {
    var e, s, n := a.exchange, a.apiServer, a.notification;
    match path
    case ExchangeKey => if e.Some? then e.value.key else ""
    case ExchangeSecret => if e.Some? then e.value.secret else ""
    case ExchangePassword => if e.Some? then e.value.password else ""
    case ExchangeUID => if e.Some? then e.value.uid else ""
    case ExchangeWalletAddress => if e.Some? then e.value.walletAddress else ""
    case ExchangePrivateKey => if e.Some? then e.value.privateKey else ""
    case APIServerPassword => if s.Some? then s.value.password else ""
    case APIServerJWTSecretKey => if s.Some? then s.value.jwtSecretKey else ""
    case TelegramToken => if n.Some? && n.value.telegram.Some? then n.value.telegram.value.token else ""
  }

  lemma {:induction false} ExchangePathExactly(a: Alpha, path: Path)
    ensures path in SetPaths(ExchangeCredentials(a.exchange))
       <==> path in {ExchangeKey, ExchangeSecret, ExchangePassword, ExchangeUID, ExchangeWalletAddress,
                     ExchangePrivateKey}
            && At(a, path) != ""
  {
    var cs := ExchangeCredentials(a.exchange);
    SetPathsExactly(cs, path);
    if a.exchange.Some? {
      var e := a.exchange.value;
      assert cs[0] == (ExchangeKey, e.key) && cs[1] == (ExchangeSecret, e.secret);
      assert cs[2] == (ExchangePassword, e.password) && cs[3] == (ExchangeUID, e.uid);
      assert cs[4] == (ExchangeWalletAddress, e.walletAddress) && cs[5] == (ExchangePrivateKey, e.privateKey);
    }
  }

  lemma {:induction false} OtherPathsExactly(a: Alpha, path: Path)
    ensures path in SetPaths(APIServerCredentials(a.apiServer))
       <==> path in {APIServerPassword, APIServerJWTSecretKey} && At(a, path) != ""
    ensures path in SetPaths(TelegramCredentials(a.notification)) <==> path == TelegramToken && At(a, path) != ""
  {
    if a.apiServer.Some? { APIServerPaths(a.apiServer.value); }
    TelegramPaths(a.notification);
  }

  /** A path is reported exactly when the very credential it stands for is set. */
  lemma {:induction false} PathReportedExactly(a: Alpha, path: Path)
    ensures path in SetPaths(Credentials(a)) <==> At(a, path) != ""
  {
    PathsByPart(a);
    ExchangePathExactly(a, path);
    OtherPathsExactly(a, path);
  }

  // ---------- The conversions ----------

  function ConvertSections(sh: Shape, from: map<Section, Value>, into: map<Section, Value>): map<Section, Value>
    requires sh.Ok() && TypedSections(sh, from)
  {
    into + map s | s in from :: ConvertJSON(sh.section(s), from[s])
  }

  function ExchangeToBeta(sh: Shape, e: AlphaExchange): BetaExchange
    requires sh.Ok() && TypedOption(sh.pairs, e.whitelist) && TypedOption(sh.pairs, e.blacklist)
  {
    BetaExchange(e.common, LocalObjectReference(e.secretRef), ConvertOption(sh.pairs, e.whitelist),
                 ConvertOption(sh.pairs, e.blacklist), e.unkownFeeRate)
  }

  function ExchangeFromBeta(sh: Shape, e: BetaExchange): AlphaExchange
    requires sh.Ok() && TypedOption(sh.pairs, e.whitelist) && TypedOption(sh.pairs, e.blacklist)
  {
    AlphaExchange(e.common, "", "", "", "", "", "", e.secretRef.name, ConvertOption(sh.pairs, e.whitelist),
                  ConvertOption(sh.pairs, e.blacklist), e.unknownFeeRate)
  }

  function NotificationToBeta(sh: Shape, n: Notification<AlphaTelegram>): Notification<BetaTelegram>
    requires sh.Ok() && TypedNotification(sh, Some(n))
    requires n.telegram.Some? ==> TypedOption(sh.settings, n.telegram.value.settings)
  {
    Notification(
      if n.telegram.None? then None
      else
        var t := n.telegram.value;
        Some(BetaTelegram(t.common, LocalObjectReference(t.secretRef), ConvertOption(sh.settings, t.settings))),
      ConvertOption(sh.webhook, n.webhook), ConvertOption(sh.discord, n.discord))
  }

  function NotificationFromBeta(sh: Shape, n: Notification<BetaTelegram>): Notification<AlphaTelegram>
    requires sh.Ok() && TypedNotification(sh, Some(n))
    requires n.telegram.Some? ==> TypedOption(sh.settings, n.telegram.value.settings)
  {
    Notification(
      if n.telegram.None? then None
      else
        var t := n.telegram.value;
        Some(AlphaTelegram(t.common, "", t.secretRef.name, ConvertOption(sh.settings, t.settings))),
      ConvertOption(sh.webhook, n.webhook), ConvertOption(sh.discord, n.discord))
  }

  /** ConvertTo over a destination that may already hold something: absent sections leave it as it is. */
  function ToBeta(sh: Shape, a: Alpha, into: Beta): Beta
    requires TypedAlpha(sh, a)
  {
    Config(a.meta, ConvertSections(sh, a.sections, into.sections),
           if a.exchange.None? then into.exchange else Some(ExchangeToBeta(sh, a.exchange.value)),
           if a.apiServer.None? then into.apiServer
           else Some(BetaAPIServer(a.apiServer.value.common, LocalObjectReference(a.apiServer.value.secretRef))),
           if a.notification.None? then into.notification else Some(NotificationToBeta(sh, a.notification.value)),
           a.status)
  }

  function FromBeta(sh: Shape, b: Beta, into: Alpha): Alpha
    requires TypedBeta(sh, b)
  {
    Config(b.meta, ConvertSections(sh, b.sections, into.sections),
           if b.exchange.None? then into.exchange else Some(ExchangeFromBeta(sh, b.exchange.value)),
           if b.apiServer.None? then into.apiServer
           else Some(AlphaAPIServer(b.apiServer.value.common, "", "", b.apiServer.value.secretRef.name)),
           if b.notification.None? then into.notification else Some(NotificationFromBeta(sh, b.notification.value)),
           b.status)
  }

  /** One JSON part as the pass carries it. */
  ghost predicate Carried(t: Type, from: Option<Value>, now: Option<Value>)
    requires TypedOption(t, from)
  {
    now == if from.None? then None else Some(Canon(t, from.value))
  }

  /** Every section the source has arrives as the pass carries it, and every other one stays the destination's. */
  lemma {:induction false} SectionsArrive(sh: Shape, from: map<Section, Value>, into: map<Section, Value>, s: Section)
    requires sh.Ok() && TypedSections(sh, from)
    ensures
      var r := ConvertSections(sh, from, into);
      && (s in from ==> s in r && r[s] == Canon(sh.section(s), from[s]))
      && (s !in from ==> (s in r <==> s in into) && (s in r ==> r[s] == into[s]))
  {}

  /** To v1beta1, field by field: what both versions have arrives under its v1beta1 name, the credentials do not, and a
      section the source leaves out stays the destination's. */
  lemma {:induction false} FieldsArriveInBeta(sh: Shape, a: Alpha, into: Beta)
    requires TypedAlpha(sh, a)
    ensures
      var b := ToBeta(sh, a, into);
      && b.meta == a.meta && b.status == a.status
      && (a.exchange.None? ==> b.exchange == into.exchange)
      && (a.exchange.Some? ==>
            var e := a.exchange.value;
            && b.exchange.Some? && b.exchange.value.common == e.common && b.exchange.value.secretRef.name == e.secretRef
            && b.exchange.value.unknownFeeRate == e.unkownFeeRate
            && Carried(sh.pairs, e.whitelist, b.exchange.value.whitelist)
            && Carried(sh.pairs, e.blacklist, b.exchange.value.blacklist))
      && (a.apiServer.None? ==> b.apiServer == into.apiServer)
      && (a.apiServer.Some? ==>
            && b.apiServer.Some? && b.apiServer.value.common == a.apiServer.value.common
            && b.apiServer.value.secretRef.name == a.apiServer.value.secretRef)
      && (a.notification.None? ==> b.notification == into.notification)
      && (a.notification.Some? ==>
            var n := a.notification.value;
            && b.notification.Some? && b.notification.value.telegram.Some? == n.telegram.Some?
            && Carried(sh.webhook, n.webhook, b.notification.value.webhook)
            && Carried(sh.discord, n.discord, b.notification.value.discord)
            && (n.telegram.Some? ==>
                  var t := b.notification.value.telegram.value;
                  && t.common == n.telegram.value.common && t.secretRef.name == n.telegram.value.secretRef
                  && Carried(sh.settings, n.telegram.value.settings, t.settings)))
  {}

  /** And from v1beta1: the same the other way round, with no credential set. */
  lemma {:induction false} FieldsArriveInAlpha(sh: Shape, b: Beta, into: Alpha)
    requires TypedBeta(sh, b)
    ensures
      var a := FromBeta(sh, b, into);
      && a.meta == b.meta && a.status == b.status
      && (b.exchange.None? ==> a.exchange == into.exchange)
      && (b.exchange.Some? ==>
            var e := b.exchange.value;
            && a.exchange.Some? && a.exchange.value.common == e.common && a.exchange.value.secretRef == e.secretRef.name
            && a.exchange.value.unkownFeeRate == e.unknownFeeRate && BareExchange(a.exchange.value)
            && Carried(sh.pairs, e.whitelist, a.exchange.value.whitelist)
            && Carried(sh.pairs, e.blacklist, a.exchange.value.blacklist))
      && (b.apiServer.None? ==> a.apiServer == into.apiServer)
      && (b.apiServer.Some? ==>
            && a.apiServer.Some? && a.apiServer.value.common == b.apiServer.value.common
            && a.apiServer.value.secretRef == b.apiServer.value.secretRef.name
            && a.apiServer.value.password == "" && a.apiServer.value.jwtSecretKey == "")
      && (b.notification.None? ==> a.notification == into.notification)
      && (b.notification.Some? ==>
            var n := b.notification.value;
            && a.notification.Some? && a.notification.value.telegram.Some? == n.telegram.Some?
            && Carried(sh.webhook, n.webhook, a.notification.value.webhook)
            && Carried(sh.discord, n.discord, a.notification.value.discord)
            && (n.telegram.Some? ==>
                  var t := a.notification.value.telegram.value;
                  && t.common == n.telegram.value.common && t.secretRef == n.telegram.value.secretRef.name
                  && t.token == "" && Carried(sh.settings, n.telegram.value.settings, t.settings)))
  {}

  // ---------- Round trips ----------

  /** Parts that go through JSON are compared up to nil and empty, everything else exactly. */
  ghost predicate SameExchange(sh: Shape, e: AlphaExchange, f: AlphaExchange)
    requires TypedOption(sh.pairs, e.whitelist) && TypedOption(sh.pairs, e.blacklist)
    requires TypedOption(sh.pairs, f.whitelist) && TypedOption(sh.pairs, f.blacklist)
  {
    && SameOption(sh.pairs, e.whitelist, f.whitelist) && SameOption(sh.pairs, e.blacklist, f.blacklist)
    && e == f.(whitelist := e.whitelist, blacklist := e.blacklist)
  }

  ghost predicate SameBetaExchange(sh: Shape, e: BetaExchange, f: BetaExchange)
    requires TypedOption(sh.pairs, e.whitelist) && TypedOption(sh.pairs, e.blacklist)
    requires TypedOption(sh.pairs, f.whitelist) && TypedOption(sh.pairs, f.blacklist)
  {
    && SameOption(sh.pairs, e.whitelist, f.whitelist) && SameOption(sh.pairs, e.blacklist, f.blacklist)
    && e == f.(whitelist := e.whitelist, blacklist := e.blacklist)
  }

  /** The channels other than Telegram. */
  ghost predicate SameChannels<T>(sh: Shape, n: Notification<T>, m: Notification<T>)
    requires TypedNotification(sh, Some(n)) && TypedNotification(sh, Some(m))
  {
    && SameOption(sh.webhook, n.webhook, m.webhook) && SameOption(sh.discord, n.discord, m.discord)
    && n.telegram.Some? == m.telegram.Some?
  }

  ghost predicate SameTelegram(sh: Shape, t: AlphaTelegram, u: AlphaTelegram)
    requires TypedOption(sh.settings, t.settings) && TypedOption(sh.settings, u.settings)
  {
    SameOption(sh.settings, t.settings, u.settings) && t == u.(settings := t.settings)
  }

  ghost predicate SameBetaTelegram(sh: Shape, t: BetaTelegram, u: BetaTelegram)
    requires TypedOption(sh.settings, t.settings) && TypedOption(sh.settings, u.settings)
  {
    SameOption(sh.settings, t.settings, u.settings) && t == u.(settings := t.settings)
  }

  ghost predicate SameSections(sh: Shape, a: map<Section, Value>, b: map<Section, Value>)
    requires TypedSections(sh, a) && TypedSections(sh, b)
  {
    a.Keys == b.Keys && forall s :: s in a ==> Same(sh.section(s), a[s], b[s])
  }

  ghost predicate SameAlpha(sh: Shape, a: Alpha, b: Alpha)
    requires TypedAlpha(sh, a) && TypedAlpha(sh, b)
  {
    && a.meta == b.meta && a.status == b.status && a.apiServer == b.apiServer
    && SameSections(sh, a.sections, b.sections)
    && a.exchange.Some? == b.exchange.Some? && a.notification.Some? == b.notification.Some?
    && (a.exchange.Some? ==> SameExchange(sh, a.exchange.value, b.exchange.value))
    && (a.notification.Some? ==>
          var n, m := a.notification.value, b.notification.value;
          SameChannels(sh, n, m) && (n.telegram.Some? ==> SameTelegram(sh, n.telegram.value, m.telegram.value)))
  }

  ghost predicate SameBeta(sh: Shape, a: Beta, b: Beta)
    requires TypedBeta(sh, a) && TypedBeta(sh, b)
  {
    && a.meta == b.meta && a.status == b.status && a.apiServer == b.apiServer
    && SameSections(sh, a.sections, b.sections)
    && a.exchange.Some? == b.exchange.Some? && a.notification.Some? == b.notification.Some?
    && (a.exchange.Some? ==> SameBetaExchange(sh, a.exchange.value, b.exchange.value))
    && (a.notification.Some? ==>
          var n, m := a.notification.value, b.notification.value;
          SameChannels(sh, n, m) && (n.telegram.Some? ==> SameBetaTelegram(sh, n.telegram.value, m.telegram.value)))
  }

  /** Every value of a config that goes through JSON, apart from the sections. */
  datatype Parts = Parts(whitelist: Option<Value>, blacklist: Option<Value>, settings: Option<Value>,
                         webhook: Option<Value>, discord: Option<Value>)

  function AlphaParts(a: Alpha): Parts {
    var e, n := a.exchange, a.notification;
    Parts(if e.Some? then e.value.whitelist else None, if e.Some? then e.value.blacklist else None,
          if n.Some? && n.value.telegram.Some? then n.value.telegram.value.settings else None,
          if n.Some? then n.value.webhook else None, if n.Some? then n.value.discord else None)
  }

  function BetaParts(b: Beta): Parts {
    var e, n := b.exchange, b.notification;
    Parts(if e.Some? then e.value.whitelist else None, if e.Some? then e.value.blacklist else None,
          if n.Some? && n.value.telegram.Some? then n.value.telegram.value.settings else None,
          if n.Some? then n.value.webhook else None, if n.Some? then n.value.discord else None)
  }

  /** Every part is one the pass carries. */
  ghost predicate LosslessConfig(sh: Shape, sections: map<Section, Value>, p: Parts)
    requires TypedSections(sh, sections)
    requires TypedOption(sh.pairs, p.whitelist) && TypedOption(sh.pairs, p.blacklist)
    requires TypedOption(sh.settings, p.settings) && TypedOption(sh.webhook, p.webhook)
    requires TypedOption(sh.discord, p.discord)
  {
    && (forall s :: s in sections ==> Lossless(sh.section(s), sections[s]))
    && LosslessOption(sh.pairs, p.whitelist) && LosslessOption(sh.pairs, p.blacklist)
    && LosslessOption(sh.settings, p.settings) && LosslessOption(sh.webhook, p.webhook)
    && LosslessOption(sh.discord, p.discord)
  }

  lemma {:induction false} SectionTwice(t: Type, v: Value)
    requires WellFormed(t) && HasType(t, v)
    ensures HasType(t, Canon(t, v)) && Canon(t, Canon(t, v)) == Canon(t, v)
    ensures Same(t, v, Canon(t, v)) <==> Lossless(t, v)
  {
    CanonIsIdempotent(t, v);
    PassKeepsExactly(t, v);
  }

  lemma {:induction false} SectionsAt(sh: Shape, from: map<Section, Value>, s: Section)
    requires sh.Ok() && TypedSections(sh, from) && s in from
    ensures s in ConvertSections(sh, from, map[])
    ensures ConvertSections(sh, from, map[])[s] == Canon(sh.section(s), from[s])
    ensures HasType(sh.section(s), ConvertSections(sh, from, map[])[s])
  {
    CanonHasType(sh.section(s), from[s]);
  }

  lemma {:induction false} SectionsTyped(sh: Shape, from: map<Section, Value>)
    requires sh.Ok() && TypedSections(sh, from)
    ensures TypedSections(sh, ConvertSections(sh, from, map[]))
    ensures ConvertSections(sh, from, map[]).Keys == from.Keys
  {
    forall s | s in from ensures HasType(sh.section(s), ConvertSections(sh, from, map[])[s]) {
      SectionsAt(sh, from, s);
    }
  }

  lemma {:induction false} SectionsTwice(sh: Shape, from: map<Section, Value>)
    requires sh.Ok() && TypedSections(sh, from)
    ensures TypedSections(sh, ConvertSections(sh, from, map[]))
    ensures ConvertSections(sh, ConvertSections(sh, from, map[]), map[]) == ConvertSections(sh, from, map[])
    ensures SameSections(sh, from, ConvertSections(sh, from, map[]))
       <==> forall s :: s in from ==> Lossless(sh.section(s), from[s])
  {
    SectionsTyped(sh, from);
    var c := ConvertSections(sh, from, map[]);
    SectionsTyped(sh, c);
    var d := ConvertSections(sh, c, map[]);
    forall s | s in from
      ensures d[s] == c[s]
      ensures Same(sh.section(s), from[s], c[s]) <==> Lossless(sh.section(s), from[s])
    {
      SectionsAt(sh, from, s);
      SectionsAt(sh, c, s);
      SectionTwice(sh.section(s), from[s]);
    }
  }

  lemma ExchangeTwice(sh: Shape, e: AlphaExchange)
    requires sh.Ok() && TypedOption(sh.pairs, e.whitelist) && TypedOption(sh.pairs, e.blacklist)
    ensures var b := ExchangeToBeta(sh, e);
            && TypedOption(sh.pairs, b.whitelist) && TypedOption(sh.pairs, b.blacklist)
            && var f := ExchangeFromBeta(sh, b);
            && TypedOption(sh.pairs, f.whitelist) && TypedOption(sh.pairs, f.blacklist)
            && (SameExchange(sh, e, f) <==>
                BareExchange(e) && LosslessOption(sh.pairs, e.whitelist) && LosslessOption(sh.pairs, e.blacklist))
  {
    OptionTwice(sh.pairs, e.whitelist);
    OptionTwice(sh.pairs, e.blacklist);
  }

  lemma BetaExchangeTwice(sh: Shape, e: BetaExchange)
    requires sh.Ok() && TypedOption(sh.pairs, e.whitelist) && TypedOption(sh.pairs, e.blacklist)
    ensures var a := ExchangeFromBeta(sh, e);
            && BareExchange(a) && TypedOption(sh.pairs, a.whitelist) && TypedOption(sh.pairs, a.blacklist)
            && var f := ExchangeToBeta(sh, a);
            && TypedOption(sh.pairs, f.whitelist) && TypedOption(sh.pairs, f.blacklist)
            && (SameBetaExchange(sh, e, f) <==>
                LosslessOption(sh.pairs, e.whitelist) && LosslessOption(sh.pairs, e.blacklist))
  {
    OptionTwice(sh.pairs, e.whitelist);
    OptionTwice(sh.pairs, e.blacklist);
  }

  lemma NotificationTwice(sh: Shape, n: Notification<AlphaTelegram>)
    requires sh.Ok() && TypedNotification(sh, Some(n))
    requires n.telegram.Some? ==> TypedOption(sh.settings, n.telegram.value.settings)
    ensures
      var b := NotificationToBeta(sh, n);
      && TypedNotification(sh, Some(b))
      && (b.telegram.Some? ==> TypedOption(sh.settings, b.telegram.value.settings))
      && var m := NotificationFromBeta(sh, b);
      && TypedNotification(sh, Some(m))
      && (SameChannels(sh, n, m) <==> LosslessOption(sh.webhook, n.webhook) && LosslessOption(sh.discord, n.discord))
      && (n.telegram.Some? ==>
            && TypedOption(sh.settings, m.telegram.value.settings)
            && (SameTelegram(sh, n.telegram.value, m.telegram.value) <==>
                n.telegram.value.token == "" && LosslessOption(sh.settings, n.telegram.value.settings)))
  {
    OptionTwice(sh.webhook, n.webhook);
    OptionTwice(sh.discord, n.discord);
    if n.telegram.Some? { OptionTwice(sh.settings, n.telegram.value.settings); }
  }

  lemma BetaNotificationTwice(sh: Shape, n: Notification<BetaTelegram>)
    requires sh.Ok() && TypedNotification(sh, Some(n))
    requires n.telegram.Some? ==> TypedOption(sh.settings, n.telegram.value.settings)
    ensures
      var a := NotificationFromBeta(sh, n);
      && TypedNotification(sh, Some(a))
      && (a.telegram.Some? ==> a.telegram.value.token == "" && TypedOption(sh.settings, a.telegram.value.settings))
      && var m := NotificationToBeta(sh, a);
      && TypedNotification(sh, Some(m))
      && (SameChannels(sh, n, m) <==> LosslessOption(sh.webhook, n.webhook) && LosslessOption(sh.discord, n.discord))
      && (n.telegram.Some? ==>
            && TypedOption(sh.settings, m.telegram.value.settings)
            && (SameBetaTelegram(sh, n.telegram.value, m.telegram.value) <==>
                LosslessOption(sh.settings, n.telegram.value.settings)))
  {
    OptionTwice(sh.webhook, n.webhook);
    OptionTwice(sh.discord, n.discord);
    if n.telegram.Some? { OptionTwice(sh.settings, n.telegram.value.settings); }
  }

  lemma {:induction false} AlphaTyped(sh: Shape, a: Alpha)
    requires TypedAlpha(sh, a)
    ensures TypedBeta(sh, ToBeta(sh, a, EMPTY_BETA))
    ensures TypedAlpha(sh, FromBeta(sh, ToBeta(sh, a, EMPTY_BETA), EMPTY_ALPHA))
  {
    SectionsTwice(sh, a.sections);
    if a.exchange.Some? { ExchangeTwice(sh, a.exchange.value); }
    if a.notification.Some? { NotificationTwice(sh, a.notification.value); }
  }

  /** The comparison, part by part. */
  lemma SameByPart(sh: Shape, a: Alpha, r: Alpha)
    requires TypedAlpha(sh, a) && TypedAlpha(sh, r)
    requires a.meta == r.meta && a.status == r.status
    requires SameSections(sh, a.sections, r.sections)
        <==> forall s :: s in a.sections ==> Lossless(sh.section(s), a.sections[s])
    requires a.exchange.Some? == r.exchange.Some? && a.notification.Some? == r.notification.Some?
    requires a.exchange.Some? ==>
               var e := a.exchange.value;
               (SameExchange(sh, e, r.exchange.value) <==>
                BareExchange(e) && LosslessOption(sh.pairs, e.whitelist) && LosslessOption(sh.pairs, e.blacklist))
    requires a.apiServer == r.apiServer <==>
             (a.apiServer.Some? ==> a.apiServer.value.password == "" && a.apiServer.value.jwtSecretKey == "")
    requires a.notification.Some? ==>
               var n, m := a.notification.value, r.notification.value;
               && n.telegram.Some? == m.telegram.Some?
               && (SameChannels(sh, n, m) <==>
                   LosslessOption(sh.webhook, n.webhook) && LosslessOption(sh.discord, n.discord))
               && (n.telegram.Some? ==>
                     (SameTelegram(sh, n.telegram.value, m.telegram.value) <==>
                      n.telegram.value.token == "" && LosslessOption(sh.settings, n.telegram.value.settings)))
    ensures SameAlpha(sh, a, r) <==> Bare(a) && LosslessConfig(sh, a.sections, AlphaParts(a))
  {}

  lemma {:induction false} BetaTyped(sh: Shape, b: Beta)
    requires TypedBeta(sh, b)
    ensures TypedAlpha(sh, FromBeta(sh, b, EMPTY_ALPHA)) && Bare(FromBeta(sh, b, EMPTY_ALPHA))
    ensures TypedBeta(sh, ToBeta(sh, FromBeta(sh, b, EMPTY_ALPHA), EMPTY_BETA))
  {
    SectionsTwice(sh, b.sections);
    if b.exchange.Some? { BetaExchangeTwice(sh, b.exchange.value); }
    if b.notification.Some? { BetaNotificationTwice(sh, b.notification.value); }
  }

  /** v1alpha1 to v1beta1 and back: nothing changes but nil against empty exactly when no credential is set and no
      JSON part holds a pointer the pass cannot carry. */
  lemma {:induction false} AlphaRoundTrip(sh: Shape, a: Alpha)
    requires TypedAlpha(sh, a)
    ensures TypedBeta(sh, ToBeta(sh, a, EMPTY_BETA))
    ensures TypedAlpha(sh, FromBeta(sh, ToBeta(sh, a, EMPTY_BETA), EMPTY_ALPHA))
    ensures SameAlpha(sh, a, FromBeta(sh, ToBeta(sh, a, EMPTY_BETA), EMPTY_ALPHA))
       <==> Bare(a) && LosslessConfig(sh, a.sections, AlphaParts(a))
  {
    AlphaTyped(sh, a);
    var r := FromBeta(sh, ToBeta(sh, a, EMPTY_BETA), EMPTY_ALPHA);
    assert SameSections(sh, a.sections, r.sections)
      <==> forall s :: s in a.sections ==> Lossless(sh.section(s), a.sections[s])
      by { SectionsTwice(sh, a.sections); }
    if a.exchange.Some? { ExchangeTwice(sh, a.exchange.value); }
    if a.notification.Some? { NotificationTwice(sh, a.notification.value); }
    SameByPart(sh, a, r);
  }

  /** v1beta1 to v1alpha1 and back: the object always converts back, and is the same exactly when lossless. */
  lemma BetaRoundTrip(sh: Shape, b: Beta)
    requires TypedBeta(sh, b)
    ensures TypedAlpha(sh, FromBeta(sh, b, EMPTY_ALPHA)) && Bare(FromBeta(sh, b, EMPTY_ALPHA))
    ensures TypedBeta(sh, ToBeta(sh, FromBeta(sh, b, EMPTY_ALPHA), EMPTY_BETA))
    ensures SameBeta(sh, b, ToBeta(sh, FromBeta(sh, b, EMPTY_ALPHA), EMPTY_BETA))
       <==> LosslessConfig(sh, b.sections, BetaParts(b))
  {
    BetaTyped(sh, b);
    SectionsTwice(sh, b.sections);
    if b.exchange.Some? { BetaExchangeTwice(sh, b.exchange.value); }
    if b.notification.Some? { BetaNotificationTwice(sh, b.notification.value); }
  }

  /** RiskManagementSpec, field by field. */
  const RISK_MANAGEMENT_TYPE := Struct([
    Field("minimal_roi", true, Mapping(Pointer(Number))), Field("stoploss", true, Pointer(Number)),
    Field("trailing_stop", true, Flag), Field("trailing_stop_positive", true, Pointer(Number)),
    Field("trailing_stop_positive_offset", true, Pointer(Number)), Field("trailing_only_offset_is_reached", true, Flag),
    Field("use_exit_signal", true, Flag), Field("exit_profit_only", true, Flag),
    Field("exit_profit_offset", true, Pointer(Number)), Field("fee", true, Pointer(Number)),
    Field("ignore_roi_if_entry_signal", true, Flag), Field("ignore_buying_expired_candle_after", true, Pointer(Number)),
    Field("minimum_trade_amount", true, Pointer(Number)), Field("targeted_trade_amount", true, Pointer(Number)),
    Field("lookahead_analysis_export_filename", true, Text), Field("startup_candle", true, Pointer(Slice(Number))),
    Field("liquidation_buffer", true, Pointer(Number)), Field("backtest_breakdown", true, Slice(Text))])

  const STARTUP_CANDLE := 15

  lemma {:induction false} OneFieldDecides(t: Type, i: nat, v: Value)
    requires t.Struct? && i < |t.fields| && HasType(t, v)
    requires forall k :: 0 <= k < |t.fields| && k != i ==> Plain(t.fields[k].ty)
    ensures HasType(t.fields[i].ty, v.values[i])
    ensures Lossless(t, v) <==> Lossless(t.fields[i].ty, v.values[i])
  {
    forall k | 0 <= k < |t.fields| && k != i ensures Lossless(t.fields[k].ty, v.values[k]) {
      PlainLosesNothing(t.fields[k].ty, v.values[k]);
    }
  }

  lemma PointerToSlice(p: Value)
    requires HasType(Pointer(Slice(Number)), p)
    ensures Lossless(Pointer(Slice(Number)), p) <==> p != PointerTo(Nil)
  {
    if p.PointerTo? && p.target.SliceOf? { PlainLosesNothing(Slice(Number), p.target); }
  }

  lemma RiskFieldsArePlain()
    ensures |RISK_MANAGEMENT_TYPE.fields| == 18
    ensures forall k :: 0 <= k < 18 && k != STARTUP_CANDLE ==> Plain(RISK_MANAGEMENT_TYPE.fields[k].ty)
    ensures RISK_MANAGEMENT_TYPE.fields[STARTUP_CANDLE].ty == Pointer(Slice(Number))
  {}

  /** Of the risk management section the pointer-to-slice startup_candle is the one field the pass can lose, and it is
      lost exactly when it points to a nil slice. */
  lemma {:induction false} StartupCandleDecides(v: Value)
    requires HasType(RISK_MANAGEMENT_TYPE, v)
    ensures Lossless(RISK_MANAGEMENT_TYPE, v) <==> v.values[STARTUP_CANDLE] != PointerTo(Nil)
  {
    RiskFieldsArePlain();
    OneFieldDecides(RISK_MANAGEMENT_TYPE, STARTUP_CANDLE, v);
    PointerToSlice(v.values[STARTUP_CANDLE]);
  }

  // ---------- The objects, converted in place ----------

  class BetaConfig {
    var meta: Meta
    var sections: map<Section, Value>
    var exchange: Option<BetaExchange>
    var apiServer: Option<BetaAPIServer>
    var notification: Option<Notification<BetaTelegram>>
    var status: Status

    ghost function View(): Beta reads this {
      Config(meta, sections, exchange, apiServer, notification, status)
    }

    constructor (b: Beta)
      ensures View() == b
    {
      meta, sections, exchange := b.meta, b.sections, b.exchange;
      apiServer, notification, status := b.apiServer, b.notification, b.status;
    }
  }

  datatype Admission = Admitted | AdmittedWithWarning | Denied(fields: seq<Path>)

  class AlphaConfig {
    var meta: Meta
    var sections: map<Section, Value>
    var exchange: Option<AlphaExchange>
    var apiServer: Option<AlphaAPIServer>
    var notification: Option<Notification<AlphaTelegram>>
    var status: Status

    ghost function View(): Alpha reads this {
      Config(meta, sections, exchange, apiServer, notification, status)
    }

    constructor (a: Alpha)
      ensures View() == a
    {
      meta, sections, exchange := a.meta, a.sections, a.exchange;
      apiServer, notification, status := a.apiServer, a.notification, a.status;
    }

    /** plaintextCredentialFields. */
    method PlaintextCredentialFields() returns (fields: seq<Path>)
      ensures fields == SetPaths(Credentials(View()))
      ensures fields == [] <==> Bare(View())
    {
      fields := [];
      if exchange.Some? { fields := ExchangeFields(exchange.value); }
      if apiServer.Some? {
        var more := APIServerFields(apiServer.value);
        fields := fields + more;
      }
      if notification.Some? && notification.value.telegram.Some? && notification.value.telegram.value.token != "" {
        fields := fields + [TelegramToken];
      }
      TelegramPaths(notification);
      assert fields == SetPaths(ExchangeCredentials(exchange)) + SetPaths(APIServerCredentials(apiServer))
                       + SetPaths(TelegramCredentials(notification));
      PathsByPart(View());
      BareHasNoSetPath(View());
    }

    /** ConvertTo: rejected, with the offending paths and an untouched destination, exactly when a credential is set. */
    method ConvertTo(sh: Shape, dst: BetaConfig) returns (r: Result<(), seq<Path>>)
      requires TypedAlpha(sh, View())
      modifies dst
      ensures r.Success? <==> Bare(View())
      ensures r.Success? ==> dst.View() == ToBeta(sh, View(), old(dst.View()))
      ensures r.Failure? ==> r.error == SetPaths(Credentials(View())) && dst.View() == old(dst.View())
    {
      var fields := PlaintextCredentialFields();
      if |fields| > 0 { return Failure(fields); }
      dst.meta := meta;
      dst.sections := ConvertSections(sh, sections, dst.sections);
      if exchange.Some? { dst.exchange := Some(ExchangeToBeta(sh, exchange.value)); }
      if apiServer.Some? {
        dst.apiServer := Some(BetaAPIServer(apiServer.value.common, LocalObjectReference(apiServer.value.secretRef)));
      }
      if notification.Some? { dst.notification := Some(NotificationToBeta(sh, notification.value)); }
      dst.status := status;
      r := Success(());
    }

    /** ConvertFrom never fails. */
    method ConvertFrom(sh: Shape, src: BetaConfig)
      requires TypedBeta(sh, src.View())
      modifies this
      ensures View() == FromBeta(sh, src.View(), old(View()))
    {
      meta := src.meta;
      sections := ConvertSections(sh, src.sections, sections);
      if src.exchange.Some? { exchange := Some(ExchangeFromBeta(sh, src.exchange.value)); }
      if src.apiServer.Some? {
        apiServer := Some(AlphaAPIServer(src.apiServer.value.common, "", "", src.apiServer.value.secretRef.name));
      }
      if src.notification.Some? { notification := Some(NotificationFromBeta(sh, src.notification.value)); }
      status := src.status;
    }

    /** The admission webhook. */
    method Validate(update: bool) returns (v: Admission)
      ensures v.Denied? <==> !Bare(View()) && !Exempt(View(), update)
      ensures v.Denied? <==>
                && !Bare(View()) && !(update && meta.deleting)
                && !("freqtrade.io/allow-plaintext-credentials" in meta.annotations
                     && meta.annotations["freqtrade.io/allow-plaintext-credentials"] == "true")
      ensures v.Denied? ==> v.fields == SetPaths(Credentials(View()))
      ensures v.AdmittedWithWarning? <==> !Bare(View()) && Exempt(View(), update) && !(update && meta.deleting)
    {
      if update && meta.deleting { return Admitted; }
      var fields := PlaintextCredentialFields();
      if |fields| == 0 { return Admitted; }
      if ALLOW_PLAINTEXT !in meta.annotations || meta.annotations[ALLOW_PLAINTEXT] != "true" { return Denied(fields); }
      v := AdmittedWithWarning;
    }
  }

  const ALLOW_PLAINTEXT := "freqtrade.io/allow-plaintext-credentials"

  /** The loop over the six exchange credentials. */
  method ExchangeFields(e: AlphaExchange) returns (fields: seq<Path>)
    ensures fields == SetPaths(ExchangeCredentials(Some(e)))
  {
    var table := [
      (e.key != "", ExchangeKey), (e.secret != "", ExchangeSecret), (e.password != "", ExchangePassword),
      (e.uid != "", ExchangeUID), (e.walletAddress != "", ExchangeWalletAddress),
      (e.privateKey != "", ExchangePrivateKey)];
    ghost var cs := ExchangeCredentials(Some(e));
    fields := [];
    var i := 0;
    while i < |table|
      invariant i <= |table| == |cs|
      invariant fields == SetPaths(cs[..i])
    {
      assert cs[..i + 1][..i] == cs[..i];
      if table[i].0 { fields := fields + [table[i].1]; }
      i := i + 1;
    }
    assert cs[..|cs|] == cs;
  }

  method APIServerFields(a: AlphaAPIServer) returns (fields: seq<Path>)
    ensures fields == SetPaths(APIServerCredentials(Some(a)))
  {
    APIServerPaths(a);
    fields := [];
    if a.password != "" { fields := fields + [APIServerPassword]; }
    if a.jwtSecretKey != "" { fields := fields + [APIServerJWTSecretKey]; }
  }

  /** What the webhook lets through with credentials: the annotation, or an update of an object being deleted. */
  predicate Exempt(a: Alpha, update: bool) {
    || (update && a.meta.deleting)
    || (ALLOW_PLAINTEXT in a.meta.annotations && a.meta.annotations[ALLOW_PLAINTEXT] == "true")
  }

  /** The whole write path of a v1alpha1 request: admission, then conversion to the storage version. What gets stored is
      decided by the credentials alone; annotation and deletion let the request past the webhook, never into storage. */
  method Store(a: AlphaConfig, sh: Shape, update: bool, stored: BetaConfig) returns (ok: bool)
    requires TypedAlpha(sh, a.View())
    modifies stored
    ensures ok <==> Bare(a.View())
    ensures stored.View() == if ok then ToBeta(sh, a.View(), old(stored.View())) else old(stored.View())
  {
    var v := a.Validate(update);
    if v.Denied? { return false; }
    var r := a.ConvertTo(sh, stored);
    ok := r.Success?;
  }

  lemma {:induction false} SetPathsOne(cs: seq<Credential>, c: Credential)
    ensures SetPaths(cs + [c]) == SetPaths(cs) + (if c.1 != "" then [c.0] else [])
  {
    assert (cs + [c])[..|cs|] == cs;
  }
}
