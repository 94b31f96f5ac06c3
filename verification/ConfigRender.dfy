/** Rendering config.json: the sections merged by BuildConfig, and the API server's JWT key, which is generated once and
    then read back out of the Secret the previous render was stored in. */
module ConfigRender {
  import opened Wrappers
  import opened GoJson
  import opened CorsHosts
  import opened ConfigSections

  /** A TradeBotConfig; sections whose inside does not matter here are given as their builders return them. */
  datatype Spec = Spec(
    bot: Option<BotConfig>, ai: Option<Section>, data: Option<DataConfig>, advanced: Option<AdvancedConfig>,
    timeout: Option<Section>, internals: Option<Section>, apiServer: Option<APIServer>, experimental: Option<Section>,
    logging: Option<Section>, exchange: Option<Exchange>, pairlists: Option<Json>, entryPricing: Option<Section>,
    exitPricing: Option<Section>, orderTypes: Option<Section>, orderTimeInForce: Option<Section>,
    orderflow: Option<Section>, risk: Option<RiskManagement>, notification: Option<Notification>)

  /** The two builders that read a Secret of their own. */
  datatype Builders = Builders(exchange: (Section, Secret) -> Section, telegram: (Section, Secret) -> Section)

  datatype SecretReply = Data(data: map<string, string>) | Missing | Unreadable

  /** What reading the config Secret back returns. */
  datatype Read = NotFound | ReadFails | Garbage | Shows(config: Section)

  /** What a render has to work with besides the spec; generated is what the random source would give, hex-encoded. */
  datatype Env = Env(
    name: string, parse: string -> Parsed, apiSecret: SecretReply, exchangeSecret: SecretReply,
    telegramSecret: SecretReply, extraCORS: seq<string>, read: Read, generated: string)

  datatype Error =
    | MissingExchange | APISecret(missing: bool) | KeyTooShort | ConfigSecret | ExchangeSecret(missing: bool)
    | TelegramSecret(missing: bool) | NotMarshalable

  // ---------- Secrets and the JWT key ----------

  const MIN_KEY_LENGTH := 32

  /** GetSecretData: no name, no read. */
  predicate Readable(ref: string, reply: SecretReply) {
    ref == "" || reply.Data?
  }

  function Fetched(ref: string, reply: SecretReply): Secret {
    if ref == "" || !reply.Data? then None else Some(reply.data)
  }

  function APISecretRef(s: Spec): string {
    if s.apiServer.None? then "" else s.apiServer.value.secretRef
  }

  function TelegramSecretRef(s: Spec): string {
    if s.notification.None? || s.notification.value.telegram.None? then ""
    else s.notification.value.telegram.value.secretRef
  }

  function APICredentials(s: Spec, env: Env): Secret {
    Fetched(APISecretRef(s), env.apiSecret)
  }

  predicate Enabled(a: Option<APIServer>) {
    a.Some? && a.value.enabled == Some(true)
  }

  /** The key the user supplied: the Secret's, or else the deprecated plaintext one, or "". */
  function UserKey(a: APIServer, creds: Secret): string {
    if creds.Some? && "jwt_secret_key" in creds.value && creds.value["jwt_secret_key"] != ""
    then creds.value["jwt_secret_key"] else a.jwtSecretKey
  }

  /** The field at api_server.jwt_secret_key, "" if it is not there. */
  function KeyIn(c: Section): string {
    if "api_server" in c && c["api_server"].JObject? && "jwt_secret_key" in c["api_server"].members
       && c["api_server"].members["jwt_secret_key"].JText?
    then c["api_server"].members["jwt_secret_key"].text else ""
  }

  /** existingAPIServerJWTSecretKey: "" stands for every reason there is no key to reuse. */
  function ReadBack(r: Read): Result<string, Error> {
    match r
    case NotFound => Success("")
    case ReadFails => Failure(ConfigSecret)
    case Garbage => Success("")
    case Shows(c) => Success(KeyIn(c))
  }

  function ResolveKey(s: Spec, env: Env): Result<string, Error> {
    if !Enabled(s.apiServer) then Success("")
    else
      var key := UserKey(s.apiServer.value, APICredentials(s, env));
      if key != "" then if |key| < MIN_KEY_LENGTH then Failure(KeyTooShort) else Success(key)
      else
        var existing := ReadBack(env.read);
        if existing.Failure? then existing
        else Success(if existing.value != "" then existing.value else env.generated)
  }

  // ---------- The config ----------

  function One(key: string, v: Option<Json>): Section {
    Put(map[], key, v)
  }

  function APIServerSection(s: Spec, env: Env, key: string): Option<Section> {
    if s.apiServer.None? then None
    else Some(PutAll(APIServerEntries(s.apiServer.value, APICredentials(s, env), key, env.extraCORS)))
  }

  function ExchangeSection(b: Builders, s: Spec, env: Env): Option<Section> {
    if s.exchange.None? then None
    else Some(b.exchange(s.exchange.value.settings, Fetched(s.exchange.value.secretRef, env.exchangeSecret)))
  }

  function NotificationSection(b: Builders, s: Spec, env: Env): Section {
    if s.notification.None? then map[]
    else
      PutAll(NotificationEntries(s.notification.value, b.telegram, Fetched(TelegramSecretRef(s), env.telegramSecret)))
  }

  /** What the i-th builder contributes, in the order in which they are written into the config. */
  function PartAt(b: Builders, s: Spec, env: Env, key: string, i: nat): Section {
    match i
    case 0 => if s.bot.None? then map[] else PutAll(BotEntries(s.bot.value, env.name, env.parse))
    case 1 => Single("freqai", s.ai)
    case 2 => if s.data.None? then map[] else PutAll(DataEntries(s.data.value))
    case 3 => if s.advanced.None? then map[] else PutAll(AdvancedEntries(s.advanced.value))
    case 4 => SingleIfAny("unfilledtimeout", s.timeout)
    case 5 => SingleIfAny("internals", s.internals)
    case 6 => Single("api_server", APIServerSection(s, env, key))
    case 7 => Single("experimental", s.experimental)
    case 8 => Single("logging", s.logging)
    case 9 => Single("exchange", ExchangeSection(b, s, env))
    case 10 => One("pairlists", s.pairlists)
    case 11 => Single("entry_pricing", s.entryPricing)
    case 12 => Single("exit_pricing", s.exitPricing)
    case 13 => Single("order_types", s.orderTypes)
    case 14 => Single("order_time_in_force", s.orderTimeInForce)
    case 15 => Single("orderflow", s.orderflow)
    case 16 => if s.risk.None? then map[] else PutAll(RiskEntries(s.risk.value))
    case _ => NotificationSection(b, s, env)
  }

  function Parts(b: Builders, s: Spec, env: Env, key: string): (parts: seq<Section>)
    ensures |parts| == 18 && forall i :: 0 <= i < 18 ==> parts[i] == PartAt(b, s, env, key, i)
  {
    seq(18, i requires 0 <= i < 18 => PartAt(b, s, env, key, i))
  }

  const API_SERVER_PART := 6

  /** Written one after the other, later entries over earlier ones. */
  function Merge(parts: seq<Section>): Section {
    if parts == [] then map[] else Merge(parts[..|parts| - 1]) + parts[|parts| - 1]
  }

  function Render(b: Builders, s: Spec, env: Env): Result<Section, Error> {
    if s.exchange.None? then Failure(MissingExchange)
    else if !Readable(APISecretRef(s), env.apiSecret) then Failure(APISecret(env.apiSecret.Missing?))
    else
      var key := ResolveKey(s, env);
      if key.Failure? then Failure(key.error)
      else if !Readable(s.exchange.value.secretRef, env.exchangeSecret) then
        Failure(ExchangeSecret(env.exchangeSecret.Missing?))
      else if !Readable(TelegramSecretRef(s), env.telegramSecret) then
        Failure(TelegramSecret(env.telegramSecret.Missing?))
      else if Unmarshalable(s.bot, env.parse) then Failure(NotMarshalable)
      else Success(Merge(Parts(b, s, env, key.value)))
  }

  // ---------- No section overwrites another ----------

  /** Which part, if any, has entries whose key looks like this. */
  function Part(mark: (nat, char, char)): nat {
    if mark in BOT_MARKS then 0
    else if mark == (6, 'f', 'i') then 1
    else if mark in DATA_MARKS then 2
    else if mark in ADVANCED_MARKS then 3
    else if mark == (15, 'u', 't') then 4
    else if mark == (9, 'i', 's') then 5
    else if mark == (10, 'a', 'r') then 6
    else if mark == (12, 'e', 'l') then 7
    else if mark == (7, 'l', 'g') then 8
    else if mark == (8, 'e', 'e') then 9
    else if mark == (9, 'p', 's') then 10
    else if mark == (13, 'e', 'g') then 11
    else if mark == (12, 'e', 'g') then 12
    else if mark == (11, 'o', 's') then 13
    else if mark == (19, 'o', 'e') then 14
    else if mark == (9, 'o', 'w') then 15
    else if mark in RISK_MARKS then 16
    else 17
  }

  lemma SingleKeysMarked()
    ensures Part(Mark("freqai")) == 1 && Part(Mark("unfilledtimeout")) == 4 && Part(Mark("internals")) == 5
    ensures Part(Mark("api_server")) == 6 && Part(Mark("experimental")) == 7 && Part(Mark("logging")) == 8
    ensures Part(Mark("exchange")) == 9 && Part(Mark("pairlists")) == 10 && Part(Mark("entry_pricing")) == 11
    ensures Part(Mark("exit_pricing")) == 12 && Part(Mark("order_types")) == 13
    ensures Part(Mark("order_time_in_force")) == 14 && Part(Mark("orderflow")) == 15
  {}

  lemma DataPart(mark: (nat, char, char))
    requires mark in DATA_MARKS
    ensures Part(mark) == 2
  {}

  lemma AdvancedPart(mark: (nat, char, char))
    requires mark in ADVANCED_MARKS
    ensures Part(mark) == 3
  {}

  lemma RiskPart(mark: (nat, char, char))
    requires mark in RISK_MARKS
    ensures Part(mark) == 16
  {
    assert mark !in BOT_MARKS;
    assert mark !in DATA_MARKS;
    assert mark !in ADVANCED_MARKS;
  }

  lemma NotificationPart(mark: (nat, char, char))
    requires mark in NOTIFICATION_MARKS
    ensures Part(mark) == 17
  {}

  /** The parts with a single key. */
  lemma {:induction false} SinglePartMarked(b: Builders, s: Spec, env: Env, key: string, i: nat, k: string)
    requires i < 18 && i !in {0, 2, 3, 16, 17} && k in PartAt(b, s, env, key, i)
    ensures Part(Mark(k)) == i
  {
    SingleKeysMarked();
  }

  lemma BotPartMarked(b: Builders, s: Spec, env: Env, key: string, k: string)
    requires k in PartAt(b, s, env, key, 0)
    ensures Part(Mark(k)) == 0
  {
    BotMarked(s.bot.value, env.name, env.parse, k);
  }

  lemma DataPartMarked(b: Builders, s: Spec, env: Env, key: string, k: string)
    requires k in PartAt(b, s, env, key, 2)
    ensures Part(Mark(k)) == 2
  {
    DataMarked(s.data.value, k);
    DataPart(Mark(k));
  }

  lemma AdvancedPartMarked(b: Builders, s: Spec, env: Env, key: string, k: string)
    requires k in PartAt(b, s, env, key, 3)
    ensures Part(Mark(k)) == 3
  {
    AdvancedMarked(s.advanced.value, k);
    AdvancedPart(Mark(k));
  }

  lemma RiskPartMarked(b: Builders, s: Spec, env: Env, key: string, k: string)
    requires k in PartAt(b, s, env, key, 16)
    ensures Part(Mark(k)) == 16
  {
    RiskMarked(s.risk.value, k);
    RiskPart(Mark(k));
  }

  lemma NotificationPartMarked(b: Builders, s: Spec, env: Env, key: string, k: string)
    requires k in PartAt(b, s, env, key, 17)
    ensures Part(Mark(k)) == 17
  {
    NotificationMarked(s.notification.value, b.telegram, Fetched(TelegramSecretRef(s), env.telegramSecret), k);
    NotificationPart(Mark(k));
  }

  /** Every key of the i-th part looks like one of the i-th part. */
  lemma PartsMarked(b: Builders, s: Spec, env: Env, key: string, i: nat, k: string)
    requires i < 18 && k in PartAt(b, s, env, key, i)
    ensures Part(Mark(k)) == i
  {
    if i !in {0, 2, 3, 16, 17} { SinglePartMarked(b, s, env, key, i, k); }
    else if i == 0 { BotPartMarked(b, s, env, key, k); }
    else if i == 2 { DataPartMarked(b, s, env, key, k); }
    else if i == 3 { AdvancedPartMarked(b, s, env, key, k); }
    else if i == 16 { RiskPartMarked(b, s, env, key, k); }
    else { NotificationPartMarked(b, s, env, key, k); }
  }

  /** Parts whose keys are told apart by a function all survive a merge, in any order. */
  lemma {:induction false} MergeKeeps(parts: seq<Section>, part: string -> nat, k: string)
    requires forall i :: 0 <= i < |parts| && k in parts[i] ==> part(k) == i
    ensures forall i :: 0 <= i < |parts| && k in parts[i] ==> k in Merge(parts) && Merge(parts)[k] == parts[i][k]
    ensures k in Merge(parts) ==> exists i :: 0 <= i < |parts| && k in parts[i]
  {
    if parts != [] {
      var n := |parts| - 1;
      forall i | 0 <= i < n && k in parts[..n][i] ensures part(k) == i { assert k in parts[i]; }
      MergeKeeps(parts[..n], part, k);
      if k in parts[n] {
      } else if k in Merge(parts) {
        var i :| 0 <= i < n && k in parts[..n][i];
        assert k in parts[i];
      }
      forall i | 0 <= i < n && k in parts[i] ensures k in Merge(parts) && Merge(parts)[k] == parts[i][k] {
        assert k in parts[..n][i];
      }
    }
  }

  /** In every config ever rendered, no section overwrites an entry of another: what a builder contributed is there, and
      nothing else is. */
  lemma NoSectionIsOverwritten(b: Builders, s: Spec, env: Env, key: string, k: string)
    ensures var parts, c := Parts(b, s, env, key), Merge(Parts(b, s, env, key));
            && (forall i :: 0 <= i < |parts| && k in parts[i] ==> k in c && c[k] == parts[i][k])
            && (k in c ==> exists i :: 0 <= i < |parts| && k in parts[i])
  {
    forall i | 0 <= i < |Parts(b, s, env, key)| && k in Parts(b, s, env, key)[i] ensures Part(Mark(k)) == i {
      PartsMarked(b, s, env, key, i, k);
    }
    MergeKeeps(Parts(b, s, env, key), x => Part(Mark(x)), k);
  }

  lemma RenderIsMerge(b: Builders, s: Spec, env: Env)
    requires Render(b, s, env).Success?
    ensures ResolveKey(s, env).Success?
    ensures Render(b, s, env).value == Merge(Parts(b, s, env, ResolveKey(s, env).value))
  {}

  lemma KeyInMerge(b: Builders, s: Spec, env: Env, key: string)
    ensures KeyIn(Merge(Parts(b, s, env, key))) == if s.apiServer.Some? then key else ""
  {
    var parts := Parts(b, s, env, key);
    NoSectionIsOverwritten(b, s, env, key, "api_server");
    SingleKeysMarked();
    if s.apiServer.Some? {
      KeyInSection(s.apiServer.value, APICredentials(s, env), key, env.extraCORS);
      assert "api_server" in parts[API_SERVER_PART];
    } else if "api_server" in Merge(parts) {
      var i :| 0 <= i < |parts| && "api_server" in parts[i];
      PartsMarked(b, s, env, key, i, "api_server");
    }
  }

  lemma NoServerNoKey(s: Spec, env: Env)
    ensures s.apiServer.None? ==> ResolveKey(s, env) == Success("")
  {}

  /** So the key that was resolved is the key that is read back from what was rendered. */
  lemma ReadBackIsResolved(b: Builders, s: Spec, env: Env)
    requires Render(b, s, env).Success?
    ensures ResolveKey(s, env).Success? && KeyIn(Render(b, s, env).value) == ResolveKey(s, env).value
  {
    RenderIsMerge(b, s, env);
    KeyInMerge(b, s, env, ResolveKey(s, env).value);
    NoServerNoKey(s, env);
  }

  // ---------- What a rendered config says ----------

  /** What is at a key is what the part that owns it put there. */
  lemma {:induction false} PartDecides(b: Builders, s: Spec, env: Env, key: string, i: nat, k: string)
    requires i < 18 && Part(Mark(k)) == i
    ensures var c, part := Merge(Parts(b, s, env, key)), PartAt(b, s, env, key, i);
            At(c, k, if k in part then Some(part[k]) else None)
  {
    NoSectionIsOverwritten(b, s, env, key, k);
    var parts := Parts(b, s, env, key);
    if k in Merge(parts) {
      var j :| 0 <= j < |parts| && k in parts[j];
      PartsMarked(b, s, env, key, j, k);
    }
    if k in PartAt(b, s, env, key, i) { assert k in parts[i]; }
  }

  predicate Within(part: Section, c: Section) {
    forall k :: k in part ==> k in c && c[k] == part[k]
  }

  lemma {:induction false} PartIsWithin(b: Builders, s: Spec, env: Env, key: string, i: nat)
    requires i < 18
    ensures Within(PartAt(b, s, env, key, i), Merge(Parts(b, s, env, key)))
  {
    forall k | k in PartAt(b, s, env, key, i)
      ensures k in Merge(Parts(b, s, env, key)) && Merge(Parts(b, s, env, key))[k] == PartAt(b, s, env, key, i)[k]
    {
      PartsMarked(b, s, env, key, i, k);
      PartDecides(b, s, env, key, i, k);
    }
  }

  /** The object under k is this section, and there is none without it. */
  predicate ObjectAt(c: Section, k: string, v: Option<Section>) {
    At(c, k, if v.Some? then Some(JObject(v.value)) else None)
  }

  lemma {:induction false} BotLevelNames(b: Builders, s: Spec, env: Env, key: string)
    ensures
      var c := Merge(Parts(b, s, env, key));
      && ObjectAt(c, "freqai", s.ai)
      && ObjectAt(c, "unfilledtimeout", if s.timeout == Some(map[]) then None else s.timeout)
      && ObjectAt(c, "internals", if s.internals == Some(map[]) then None else s.internals)
      && ObjectAt(c, "experimental", s.experimental) && ObjectAt(c, "logging", s.logging)
  {
    SingleKeysMarked();
    PartDecides(b, s, env, key, 1, "freqai");
    PartDecides(b, s, env, key, 4, "unfilledtimeout");
    PartDecides(b, s, env, key, 5, "internals");
    PartDecides(b, s, env, key, 7, "experimental");
    PartDecides(b, s, env, key, 8, "logging");
  }

  lemma {:induction false} OrderLevelNames(b: Builders, s: Spec, env: Env, key: string)
    ensures
      var c := Merge(Parts(b, s, env, key));
      && At(c, "pairlists", s.pairlists)
      && ObjectAt(c, "entry_pricing", s.entryPricing) && ObjectAt(c, "exit_pricing", s.exitPricing)
      && ObjectAt(c, "order_types", s.orderTypes) && ObjectAt(c, "order_time_in_force", s.orderTimeInForce)
      && ObjectAt(c, "orderflow", s.orderflow)
  {
    SingleKeysMarked();
    PartDecides(b, s, env, key, 10, "pairlists");
    PartDecides(b, s, env, key, 11, "entry_pricing");
    PartDecides(b, s, env, key, 12, "exit_pricing");
    PartDecides(b, s, env, key, 13, "order_types");
    PartDecides(b, s, env, key, 14, "order_time_in_force");
    PartDecides(b, s, env, key, 15, "orderflow");
  }

  /** Each section with a name of its own is under that name as its builder made it; an empty unfilledtimeout or
      internals section is left out. */
  lemma {:induction false} NamedSectionsSay(b: Builders, s: Spec, env: Env)
    requires Render(b, s, env).Success?
    ensures
      var c := Render(b, s, env).value;
      && ObjectAt(c, "freqai", s.ai)
      && ObjectAt(c, "unfilledtimeout", if s.timeout == Some(map[]) then None else s.timeout)
      && ObjectAt(c, "internals", if s.internals == Some(map[]) then None else s.internals)
      && ObjectAt(c, "experimental", s.experimental) && ObjectAt(c, "logging", s.logging)
      && At(c, "pairlists", s.pairlists)
      && ObjectAt(c, "entry_pricing", s.entryPricing) && ObjectAt(c, "exit_pricing", s.exitPricing)
      && ObjectAt(c, "order_types", s.orderTypes) && ObjectAt(c, "order_time_in_force", s.orderTimeInForce)
      && ObjectAt(c, "orderflow", s.orderflow)
  {
    RenderIsMerge(b, s, env);
    BotLevelNames(b, s, env, ResolveKey(s, env).value);
    OrderLevelNames(b, s, env, ResolveKey(s, env).value);
  }

  /** The data of the Secret a section names, none if it names none. */
  function Named(ref: string, reply: SecretReply): Secret {
    if ref == "" then None else if reply.Data? then Some(reply.data) else None
  }

  lemma {:induction false} SecretPartsSay(b: Builders, s: Spec, env: Env, key: string)
    requires s.exchange.Some? && Readable(s.exchange.value.secretRef, env.exchangeSecret)
    requires Readable(APISecretRef(s), env.apiSecret)
    ensures
      var c := Merge(Parts(b, s, env, key));
      && ObjectAt(c, "exchange", Some(b.exchange(s.exchange.value.settings,
                                                 Named(s.exchange.value.secretRef, env.exchangeSecret))))
      && ObjectAt(c, "api_server",
                  if s.apiServer.None? then None
                  else Some(PutAll(APIServerEntries(s.apiServer.value,
                                                    Named(s.apiServer.value.secretRef, env.apiSecret), key,
                                                    env.extraCORS))))
  {
    SingleKeysMarked();
    PartDecides(b, s, env, key, 9, "exchange");
    PartDecides(b, s, env, key, 6, "api_server");
  }

  /** The sections that take something from a Secret take it from their own: the exchange's builder and telegram's get
      the data of the one their section names, and the API server's section is filled with the credentials of its own
      and the resolved key. */
  lemma {:induction false} SecretSectionsSay(b: Builders, s: Spec, env: Env)
    requires Render(b, s, env).Success?
    ensures
      var c := Render(b, s, env).value;
      && ObjectAt(c, "exchange", Some(b.exchange(s.exchange.value.settings,
                                                 Named(s.exchange.value.secretRef, env.exchangeSecret))))
      && (s.apiServer.None? ==> "api_server" !in c)
      && (s.apiServer.Some? ==>
            var a := s.apiServer.value;
            ObjectAt(c, "api_server", Some(PutAll(
              APIServerEntries(a, Named(a.secretRef, env.apiSecret), KeyIn(c), env.extraCORS)))))
      && (s.notification.Some? ==>
            var n := s.notification.value;
            var ref := if n.telegram.Some? then n.telegram.value.secretRef else "";
            Within(PutAll(NotificationEntries(n, b.telegram, Named(ref, env.telegramSecret))), c))
  {
    RenderIsMerge(b, s, env);
    var key := ResolveKey(s, env).value;
    SecretPartsSay(b, s, env, key);
    PartIsWithin(b, s, env, key, 17);
    KeyInMerge(b, s, env, key);
  }

  /** Some section put k there. */
  predicate Sourced(b: Builders, s: Spec, env: Env, k: string) {
    || k in {"freqai", "unfilledtimeout", "internals", "api_server", "experimental", "logging", "exchange",
             "pairlists", "entry_pricing", "exit_pricing", "order_types", "order_time_in_force", "orderflow"}
    || (s.bot.Some? && k in PutAll(BotEntries(s.bot.value, env.name, env.parse)))
    || (s.data.Some? && k in PutAll(DataEntries(s.data.value)))
    || (s.advanced.Some? && k in PutAll(AdvancedEntries(s.advanced.value)))
    || (s.risk.Some? && k in PutAll(RiskEntries(s.risk.value)))
    || (s.notification.Some? && k in NotificationSection(b, s, env))
  }

  lemma {:induction false} PartIsSourced(b: Builders, s: Spec, env: Env, key: string, i: nat, k: string)
    requires i < 18 && k in PartAt(b, s, env, key, i)
    ensures Sourced(b, s, env, k)
  {
    if i !in {0, 2, 3, 16, 17} { SingleIsNamed(b, s, env, key, i, k); }
  }

  lemma {:induction false} SingleIsNamed(b: Builders, s: Spec, env: Env, key: string, i: nat, k: string)
    requires i < 18 && i !in {0, 2, 3, 16, 17} && k in PartAt(b, s, env, key, i)
    ensures k in {"freqai", "unfilledtimeout", "internals", "api_server", "experimental", "logging", "exchange",
                  "pairlists", "entry_pricing", "exit_pricing", "order_types", "order_time_in_force", "orderflow"}
  {}

  lemma {:induction false} SpreadParts(b: Builders, s: Spec, env: Env, key: string, k: string)
    ensures
      var c := Merge(Parts(b, s, env, key));
      && (s.bot.Some? ==> Within(PutAll(BotEntries(s.bot.value, env.name, env.parse)), c))
      && (s.data.Some? ==> Within(PutAll(DataEntries(s.data.value)), c))
      && (s.advanced.Some? ==> Within(PutAll(AdvancedEntries(s.advanced.value)), c))
      && (s.risk.Some? ==> Within(PutAll(RiskEntries(s.risk.value)), c))
      && (k in c ==> Sourced(b, s, env, k))
  {
    PartIsWithin(b, s, env, key, 0);
    PartIsWithin(b, s, env, key, 2);
    PartIsWithin(b, s, env, key, 3);
    PartIsWithin(b, s, env, key, 16);
    NoSectionIsOverwritten(b, s, env, key, k);
    if k in Merge(Parts(b, s, env, key)) {
      var i :| 0 <= i < 18 && k in Parts(b, s, env, key)[i];
      PartIsSourced(b, s, env, key, i, k);
    }
  }

  /** The sections spread over the top level are there entry by entry, and nothing is there that no section put
      there. */
  lemma {:induction false} SpreadSectionsSay(b: Builders, s: Spec, env: Env, k: string)
    requires Render(b, s, env).Success?
    ensures
      var c := Render(b, s, env).value;
      && (s.bot.Some? ==> Within(PutAll(BotEntries(s.bot.value, env.name, env.parse)), c))
      && (s.data.Some? ==> Within(PutAll(DataEntries(s.data.value)), c))
      && (s.advanced.Some? ==> Within(PutAll(AdvancedEntries(s.advanced.value)), c))
      && (s.risk.Some? ==> Within(PutAll(RiskEntries(s.risk.value)), c))
      && (k in c ==> Sourced(b, s, env, k))
  {
    RenderIsMerge(b, s, env);
    SpreadParts(b, s, env, ResolveKey(s, env).value, k);
  }

  /** Which key an enabled API server gets: its Secret's, or else the deprecated plaintext one, or else the one read
      back, or else the generated one, the first of them that is not empty. */
  lemma {:induction false} KeyPrecedence(b: Builders, s: Spec, env: Env)
    requires Render(b, s, env).Success? && s.apiServer.Some?
    ensures
      var a, k := s.apiServer.value, KeyIn(Render(b, s, env).value);
      var creds := Named(a.secretRef, env.apiSecret);
      var secret := if creds.Some? && "jwt_secret_key" in creds.value then creds.value["jwt_secret_key"] else "";
      var stored := if env.read.Shows? then KeyIn(env.read.config) else "";
      k == if a.enabled != Some(true) then ""
           else if secret != "" then secret
           else if a.jwtSecretKey != "" then a.jwtSecretKey
           else if stored != "" then stored
           else env.generated
  {
    ReadBackIsResolved(b, s, env);
  }

  /** An error names its cause, and a missing Secret is told from one that could not be read. */
  lemma {:induction false} ErrorNamesCause(b: Builders, s: Spec, env: Env)
    requires Render(b, s, env).Failure?
    ensures
      match Render(b, s, env).error
      case MissingExchange => s.exchange.None?
      case APISecret(missing) =>
        s.apiServer.Some? && s.apiServer.value.secretRef != "" && !env.apiSecret.Data?
        && (missing <==> env.apiSecret.Missing?)
      case KeyTooShort => Enabled(s.apiServer) && 0 < |UserKey(s.apiServer.value, APICredentials(s, env))| < 32
      case ConfigSecret => Enabled(s.apiServer) && env.read.ReadFails?
      case ExchangeSecret(missing) =>
        s.exchange.Some? && s.exchange.value.secretRef != "" && !env.exchangeSecret.Data?
        && (missing <==> env.exchangeSecret.Missing?)
      case TelegramSecret(missing) =>
        s.notification.Some? && s.notification.value.telegram.Some?
        && s.notification.value.telegram.value.secretRef != "" && !env.telegramSecret.Data?
        && (missing <==> env.telegramSecret.Missing?)
      case NotMarshalable => s.bot.Some? && env.parse(s.bot.value.stakeAmount).NotFinite?
  {}

  // ---------- Rendering as the operator does it ----------

  predicate GoodRandom(env: Env) {
    |env.generated| == 64
  }

  predicate WeakRead(r: Read) {
    r.Shows? && 0 < |KeyIn(r.config)| < MIN_KEY_LENGTH
  }

  /** resolveAPIServerJWTSecretKey. */
  method ResolveAPIServerJWTSecretKey(s: Spec, env: Env) returns (r: Result<string, Error>)
    ensures r == ResolveKey(s, env)
    ensures GoodRandom(env) && !WeakRead(env.read) && r.Success? ==>
              if Enabled(s.apiServer) then |r.value| >= MIN_KEY_LENGTH else r.value == ""
  {
    if s.apiServer.None? || s.apiServer.value.enabled.None? || !s.apiServer.value.enabled.value { return Success(""); }
    var creds := APICredentials(s, env);
    var key := s.apiServer.value.jwtSecretKey;
    if creds.Some? && "jwt_secret_key" in creds.value && |creds.value["jwt_secret_key"]| > 0 {
      key := creds.value["jwt_secret_key"];
    }
    if key != "" {
      if |key| < MIN_KEY_LENGTH { return Failure(KeyTooShort); }
      return Success(key);
    }
    var existing := ReadBack(env.read);
    if existing.Failure? { return existing; }
    if existing.value != "" { return existing; }
    r := Success(env.generated);
  }

  /** The copy loop over one section map, in whatever order its keys come. */
  method CopyInto(config: Section, section: Section) returns (merged: Section)
    ensures merged == config + section
  {
    merged := config;
    var left := section.Keys;
    while left != {}
      invariant left <= section.Keys
      invariant merged == config + map k | k in section && k !in left :: section[k]
    {
      var k :| k in left;
      merged := merged[k := section[k]];
      left := left - {k};
    }
    assert (map k | k in section && k !in left :: section[k]) == section;
  }

  /** Every way a render can fail. */
  predicate Fails(s: Spec, env: Env) {
    || s.exchange.None?
    || !Readable(APISecretRef(s), env.apiSecret)
    || !Readable(s.exchange.value.secretRef, env.exchangeSecret)
    || !Readable(TelegramSecretRef(s), env.telegramSecret)
    || Unmarshalable(s.bot, env.parse)
    || (Enabled(s.apiServer) &&
        var key := UserKey(s.apiServer.value, APICredentials(s, env));
        if key == "" then env.read.ReadFails? else |key| < MIN_KEY_LENGTH)
  }

  /** BuildConfig: section after section written into one map. */
  method BuildConfig(b: Builders, s: Spec, env: Env) returns (r: Result<Section, Error>)
    ensures r == Render(b, s, env)
    ensures r.Failure? <==> Fails(s, env)
  {
    if s.exchange.None? { return Failure(MissingExchange); }
    if !Readable(APISecretRef(s), env.apiSecret) { return Failure(APISecret(env.apiSecret.Missing?)); }
    var key := ResolveAPIServerJWTSecretKey(s, env);
    if key.Failure? { return Failure(key.error); }
    r := WriteSections(b, s, env, key.value);
  }

  /** The sections one after another; the exchange's and telegram's Secrets are read when their turn comes. */
  method WriteSections(b: Builders, s: Spec, env: Env, key: string) returns (r: Result<Section, Error>)
    requires s.exchange.Some?
    ensures r == if !Readable(s.exchange.value.secretRef, env.exchangeSecret) then
                   Failure(ExchangeSecret(env.exchangeSecret.Missing?))
                 else if !Readable(TelegramSecretRef(s), env.telegramSecret) then
                   Failure(TelegramSecret(env.telegramSecret.Missing?))
                 else if Unmarshalable(s.bot, env.parse) then Failure(NotMarshalable)
                 else Success(Merge(Parts(b, s, env, key)))
  {
    var config := BuildTradeBotConfig(b, s, env, key);
    if !Readable(s.exchange.value.secretRef, env.exchangeSecret) {
      return Failure(ExchangeSecret(env.exchangeSecret.Missing?));
    }
    config := WriteExchange(b, s, env, key, config);
    config := WritePricing(b, s, env, key, config);
    config := WriteOrders(b, s, env, key, config);
    config := WriteRisk(b, s, env, key, config);
    if !Readable(TelegramSecretRef(s), env.telegramSecret) {
      return Failure(TelegramSecret(env.telegramSecret.Missing?));
    }
    config := CopyInto(config, NotificationSection(b, s, env));
    MergeSecond(b, s, env, key);
    assert Parts(b, s, env, key)[..18] == Parts(b, s, env, key);
    if Unmarshalable(s.bot, env.parse) { return Failure(NotMarshalable); }
    r := Success(config);
  }

  method WriteBot(b: Builders, s: Spec, env: Env, key: string, config: Section) returns (cfg: Section)
    ensures cfg == config + PartAt(b, s, env, key, 0) + PartAt(b, s, env, key, 1)
  {
    cfg := config;
    if s.bot.Some? { cfg := CopyInto(cfg, PutAll(BotEntries(s.bot.value, env.name, env.parse))); }
    assert cfg == config + PartAt(b, s, env, key, 0);
    cfg := CopyInto(cfg, Single("freqai", s.ai));
  }

  method WriteData(b: Builders, s: Spec, env: Env, key: string, config: Section) returns (cfg: Section)
    ensures cfg == config + PartAt(b, s, env, key, 2) + PartAt(b, s, env, key, 3)
  {
    cfg := config;
    if s.data.Some? { cfg := CopyInto(cfg, PutAll(DataEntries(s.data.value))); }
    assert cfg == config + PartAt(b, s, env, key, 2);
    if s.advanced.Some? { cfg := CopyInto(cfg, PutAll(AdvancedEntries(s.advanced.value))); }
  }

  method WriteInternals(b: Builders, s: Spec, env: Env, key: string, config: Section) returns (cfg: Section)
    ensures cfg == config + PartAt(b, s, env, key, 4) + PartAt(b, s, env, key, 5)
  {
    cfg := CopyInto(config, SingleIfAny("unfilledtimeout", s.timeout));
    cfg := CopyInto(cfg, SingleIfAny("internals", s.internals));
  }

  method WriteAPIServer(b: Builders, s: Spec, env: Env, key: string, config: Section) returns (cfg: Section)
    ensures cfg == config + PartAt(b, s, env, key, 6)
  {
    cfg := config;
    if s.apiServer.Some? {
      var server := BuildAPIServerConfig(s.apiServer.value, APICredentials(s, env), key, env.extraCORS);
      cfg := cfg["api_server" := JObject(server)];
    }
  }

  method WriteExtras(b: Builders, s: Spec, env: Env, key: string, config: Section) returns (cfg: Section)
    ensures cfg == config + PartAt(b, s, env, key, 7) + PartAt(b, s, env, key, 8)
  {
    cfg := CopyInto(config, Single("experimental", s.experimental));
    cfg := CopyInto(cfg, Single("logging", s.logging));
  }

  /** BuildTradeBotConfig: the bot-level sections. */
  method BuildTradeBotConfig(b: Builders, s: Spec, env: Env, key: string) returns (cfg: Section)
    ensures cfg == Merge(Parts(b, s, env, key)[..9])
  {
    cfg := WriteBot(b, s, env, key, map[]);
    cfg := WriteData(b, s, env, key, cfg);
    cfg := WriteInternals(b, s, env, key, cfg);
    cfg := WriteAPIServer(b, s, env, key, cfg);
    cfg := WriteExtras(b, s, env, key, cfg);
    MergeFirst(b, s, env, key);
  }

  method WriteExchange(b: Builders, s: Spec, env: Env, key: string, config: Section) returns (cfg: Section)
    ensures cfg == config + PartAt(b, s, env, key, 9) + PartAt(b, s, env, key, 10)
  {
    cfg := CopyInto(config, Single("exchange", ExchangeSection(b, s, env)));
    cfg := CopyInto(cfg, One("pairlists", s.pairlists));
  }

  method WritePricing(b: Builders, s: Spec, env: Env, key: string, config: Section) returns (cfg: Section)
    ensures cfg == config + PartAt(b, s, env, key, 11) + PartAt(b, s, env, key, 12)
  {
    cfg := CopyInto(config, Single("entry_pricing", s.entryPricing));
    cfg := CopyInto(cfg, Single("exit_pricing", s.exitPricing));
  }

  method WriteOrders(b: Builders, s: Spec, env: Env, key: string, config: Section) returns (cfg: Section)
    ensures cfg == config + PartAt(b, s, env, key, 13) + PartAt(b, s, env, key, 14) + PartAt(b, s, env, key, 15)
  {
    cfg := CopyInto(config, Single("order_types", s.orderTypes));
    cfg := CopyInto(cfg, Single("order_time_in_force", s.orderTimeInForce));
    cfg := CopyInto(cfg, Single("orderflow", s.orderflow));
  }

  method WriteRisk(b: Builders, s: Spec, env: Env, key: string, config: Section) returns (cfg: Section)
    ensures cfg == config + PartAt(b, s, env, key, 16)
  {
    cfg := config;
    if s.risk.Some? { cfg := CopyInto(cfg, PutAll(RiskEntries(s.risk.value))); }
  }

  lemma MergeFirst(b: Builders, s: Spec, env: Env, key: string)
    ensures Merge(Parts(b, s, env, key)[..9])
         == map[]
            + PartAt(b, s, env, key, 0) + PartAt(b, s, env, key, 1) + PartAt(b, s, env, key, 2)
            + PartAt(b, s, env, key, 3) + PartAt(b, s, env, key, 4) + PartAt(b, s, env, key, 5)
            + PartAt(b, s, env, key, 6) + PartAt(b, s, env, key, 7) + PartAt(b, s, env, key, 8)
  {
    MergeNext(b, s, env, key, 0);
    MergeNext(b, s, env, key, 1);
    MergeNext(b, s, env, key, 2);
    MergeNext(b, s, env, key, 3);
    MergeNext(b, s, env, key, 4);
    MergeNext(b, s, env, key, 5);
    MergeNext(b, s, env, key, 6);
    MergeNext(b, s, env, key, 7);
    MergeNext(b, s, env, key, 8);
  }

  lemma MergeSecond(b: Builders, s: Spec, env: Env, key: string)
    ensures Merge(Parts(b, s, env, key)[..18])
         == Merge(Parts(b, s, env, key)[..9])
            + PartAt(b, s, env, key, 9) + PartAt(b, s, env, key, 10) + PartAt(b, s, env, key, 11)
            + PartAt(b, s, env, key, 12) + PartAt(b, s, env, key, 13) + PartAt(b, s, env, key, 14)
            + PartAt(b, s, env, key, 15) + PartAt(b, s, env, key, 16) + PartAt(b, s, env, key, 17)
  {
    MergeNext(b, s, env, key, 9);
    MergeNext(b, s, env, key, 10);
    MergeNext(b, s, env, key, 11);
    MergeNext(b, s, env, key, 12);
    MergeNext(b, s, env, key, 13);
    MergeNext(b, s, env, key, 14);
    MergeNext(b, s, env, key, 15);
    MergeNext(b, s, env, key, 16);
    MergeNext(b, s, env, key, 17);
  }

  lemma MergeNext(b: Builders, s: Spec, env: Env, key: string, i: nat)
    requires i < 18
    ensures Merge(Parts(b, s, env, key)[..i + 1]) == Merge(Parts(b, s, env, key)[..i]) + PartAt(b, s, env, key, i)
  {
    var parts := Parts(b, s, env, key);
    assert parts[..i + 1][..i] == parts[..i];
  }

  // ---------- Runs ----------

  /** What the config Secret holds: never written, not JSON, or a config. */
  datatype Stored = Absent | NotJSON | Holds(config: Section)

  function AsRead(s: Stored): Read {
    match s
    case Absent => NotFound
    case NotJSON => Garbage
    case Holds(c) => Shows(c)
  }

  function StoredKey(s: Stored): string {
    if s.Holds? then KeyIn(s.config) else ""
  }

  datatype World = World(secret: Stored, past: seq<Stored>)

  datatype Event =
    | Rendered(b: Builders, s: Spec, env: Env, applied: bool)     // the render, then the apply of the Secret
    | SecretDeleted

  /** The read may fail or show any version a cache has not caught up from. */
  ghost predicate Possible(w: World, e: Event) {
    e.Rendered? ==> GoodRandom(e.env) && (e.env.read.ReadFails? || exists v :: v in w.past && e.env.read == AsRead(v))
  }

  ghost function Next(w: World, e: Event): World {
    match e
    case Rendered(b, s, env, applied) =>
      var c := Render(b, s, env);
      if c.Success? && applied then World(Holds(c.value), w.past + [Holds(c.value)]) else w
    case SecretDeleted => World(Absent, w.past + [Absent])
  }

  ghost function Run(w: World, events: seq<Event>): World {
    if events == [] then w else Next(Run(w, events[..|events| - 1]), events[|events| - 1])
  }

  ghost predicate PossibleRun(w: World, events: seq<Event>) {
    events == [] ||
    (PossibleRun(w, events[..|events| - 1]) && Possible(Run(w, events[..|events| - 1]), events[|events| - 1]))
  }

  /** No stored version the operator may read back holds a weak key. */
  ghost predicate NoWeakKey(w: World) {
    (forall v :: v in w.past ==> StoredKey(v) == "" || |StoredKey(v)| >= MIN_KEY_LENGTH) && w.secret in w.past
  }

  lemma RenderedKeyIsStrong(w: World, e: Event)
    requires NoWeakKey(w) && Possible(w, e) && e.Rendered? && Render(e.b, e.s, e.env).Success?
    ensures var c := Render(e.b, e.s, e.env).value;
            && (Enabled(e.s.apiServer) ==> |KeyIn(c)| >= MIN_KEY_LENGTH)
            && (KeyIn(c) == "" || |KeyIn(c)| >= MIN_KEY_LENGTH)
  {
    ReadBackIsResolved(e.b, e.s, e.env);
    if !e.env.read.ReadFails? {
      var v :| v in w.past && e.env.read == AsRead(v);
      assert StoredKey(v) == "" || |StoredKey(v)| >= MIN_KEY_LENGTH;
    }
  }

  lemma {:induction false} KeysStayStrong(w: World, events: seq<Event>)
    requires NoWeakKey(w) && PossibleRun(w, events)
    ensures NoWeakKey(Run(w, events))
  {
    if events != [] {
      var before, e := events[..|events| - 1], events[|events| - 1];
      KeysStayStrong(w, before);
      if e.Rendered? && Render(e.b, e.s, e.env).Success? { RenderedKeyIsStrong(Run(w, before), e); }
    }
  }

  /** Although reading back never looks at the length: in every run that starts without a weak stored key, with any
      toggling, user keys, deletions, failed applies and lagging reads, every config rendered with the API server
      enabled carries a key of at least 32 characters. */
  lemma {:induction false} EveryKeyIsStrong(w: World, events: seq<Event>, e: Event)
    requires NoWeakKey(w) && PossibleRun(w, events)
    requires e.Rendered? && Possible(Run(w, events), e) && Render(e.b, e.s, e.env).Success? && Enabled(e.s.apiServer)
    ensures |KeyIn(Render(e.b, e.s, e.env).value)| >= MIN_KEY_LENGTH
  {
    KeysStayStrong(w, events);
    RenderedKeyIsStrong(Run(w, events), e);
  }

  /** And exactly then: a weak key someone else left in the Secret is rendered again, unlike a weak user key. */
  lemma RenderedLengthExactly(b: Builders, s: Spec, env: Env)
    requires Render(b, s, env).Success? && Enabled(s.apiServer) && GoodRandom(env)
    ensures |KeyIn(Render(b, s, env).value)| >= MIN_KEY_LENGTH
       <==> UserKey(s.apiServer.value, APICredentials(s, env)) != "" || !WeakRead(env.read)
  {
    ReadBackIsResolved(b, s, env);
  }

  /** The API server stays enabled without a user key, reads show the current Secret or fail, nobody deletes it. */
  ghost predicate Steady(w: World, e: Event) {
    e.Rendered? && Enabled(e.s.apiServer) && UserKey(e.s.apiServer.value, APICredentials(e.s, e.env)) == ""
    && (e.env.read.ReadFails? || e.env.read == AsRead(w.secret))
  }

  ghost predicate SteadyRun(w: World, events: seq<Event>) {
    events == [] ||
    (SteadyRun(w, events[..|events| - 1]) && Steady(Run(w, events[..|events| - 1]), events[|events| - 1]))
  }

  lemma SteadyRenderKeepsKey(w: World, e: Event)
    requires Steady(w, e) && StoredKey(w.secret) != "" && Render(e.b, e.s, e.env).Success?
    ensures KeyIn(Render(e.b, e.s, e.env).value) == StoredKey(w.secret)
  {
    ReadBackIsResolved(e.b, e.s, e.env);
  }

  /** Once a key is stored, every later steady render, applied or not, carries that same key. */
  lemma {:induction false} KeyNeverRotates(w: World, events: seq<Event>)
    requires StoredKey(w.secret) != "" && SteadyRun(w, events)
    ensures StoredKey(Run(w, events).secret) == StoredKey(w.secret)
    ensures forall e :: e in events && e.Rendered? && Render(e.b, e.s, e.env).Success? ==>
              KeyIn(Render(e.b, e.s, e.env).value) == StoredKey(w.secret)
  {
    if events != [] {
      var before, e := events[..|events| - 1], events[|events| - 1];
      KeyNeverRotates(w, before);
      assert events == before + [e];
      if Render(e.b, e.s, e.env).Success? { SteadyRenderKeepsKey(Run(w, before), e); }
    }
  }

  /** One applied render without a user key rotates the stored key exactly when its read did not return that key (a
      lagging cache that has not seen the Secret yet is enough) and chance does not repeat it. */
  lemma KeyRotatesExactly(w: World, e: Event)
    requires e.Rendered? && Render(e.b, e.s, e.env).Success? && e.applied
    requires Enabled(e.s.apiServer) && UserKey(e.s.apiServer.value, APICredentials(e.s, e.env)) == ""
    requires StoredKey(w.secret) != "" && e.env.generated != StoredKey(w.secret)
    ensures StoredKey(Next(w, e).secret) != StoredKey(w.secret)
       <==> ReadBack(e.env.read).value != StoredKey(w.secret)
  {
    ReadBackIsResolved(e.b, e.s, e.env);
  }

  // ---------- A second render changes nothing ----------

  /** Same spec and Secrets, FreqUIs listed in another order, another draw of random bytes: once the first render is
      stored, the second is the same config, so also the same Secret and the same config hash. */
  lemma SecondRenderIsFixpoint(
    b: Builders, s: Spec, first: Env, second: Env, parse: Parser, bot: string, fs: seq<CorsHosts.FreqUI>,
    gs: seq<CorsHosts.FreqUI>, hash: (Section, string) -> string, script: string)
    requires Render(b, s, first).Success? && GoodRandom(first)
    requires second == first.(read := Shows(Render(b, s, first).value), generated := second.generated,
                              extraCORS := Collect(parse, bot, gs))
    requires first.extraCORS == Collect(parse, bot, fs)
    requires forall f :: f in fs <==> f in gs
    ensures Render(b, s, second) == Render(b, s, first)
    ensures hash(Render(b, s, second).value, script) == hash(Render(b, s, first).value, script)
  {
    ListingOrderDoesNotShow(parse, bot, fs, gs);
    ReadBackIsResolved(b, s, first);
    assert ResolveKey(s, second) == ResolveKey(s, first);
    assert Parts(b, s, second, ResolveKey(s, first).value) == Parts(b, s, first, ResolveKey(s, first).value);
  }
}
