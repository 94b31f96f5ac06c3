/** FreqUI exposure: which Ingress and HTTPRoutes exist for a FreqUI after its reconciler applied, pruned and deleted.
    Several FreqUIs and users share the namespace; reads used for pruning come from a cache that may lag. */
module Exposure {
  import opened Wrappers
  import opened Conditions

  datatype Mode = IngressMode | GatewayMode | NoneMode

  datatype GatewaySpec = GatewaySpec(
    parentRefs: seq<string>, hostnames: seq<string>, annotations: map<string, string>, labels: map<string, string>)

  datatype FreqUI = FreqUI(
    name: string, namespace: string, uid: string, mode: Mode, host: string, gateway: Option<GatewaySpec>)

  datatype APIRoute = APIRoute(name: string, service: string)

  /** What the operator applies as an HTTPRoute. */
  datatype RouteSpec = RouteSpec(
    labels: map<string, string>, annotations: map<string, string>, hostnames: seq<string>, parentRefs: seq<string>,
    backend: string, port: int)

  datatype Rule = Rule(host: string, backend: string, port: int)

  /** A stored object: its controller's UID, if it has one, and the fields the operator applies. */
  datatype Object<T> = Object(controller: Option<string>, content: T)

  type Route = Object<RouteSpec>
  type Ingress = Object<seq<Rule>>

  datatype Cluster = Cluster(routes: map<string, Route>, ingresses: map<string, Ingress>)

  const FREQUI_LABEL := "freqtrade.io/frequi"
  const MANAGED_BY_LABEL := "app.kubernetes.io/managed-by"
  const API_PORT := 8080

  // ---------- What should exist ----------

  function MainHost(f: FreqUI): string {
    if f.host != "" then f.host else f.name + "." + f.namespace + ".svc.cluster.local"
  }

  function RouteLabels(f: FreqUI): map<string, string> {
    (if f.gateway.Some? then f.gateway.value.labels else map[])
      [FREQUI_LABEL := f.name][MANAGED_BY_LABEL := "freqtrade-operator"]
  }

  function BuildRoute(f: FreqUI, hostnames: seq<string>, backend: string, port: int): RouteSpec {
    RouteSpec(RouteLabels(f), if f.gateway.Some? then f.gateway.value.annotations else map[],
              hostnames, if f.gateway.Some? then f.gateway.value.parentRefs else [], backend, port)
  }

  function UIRoute(f: FreqUI): RouteSpec {
    BuildRoute(f,
               if f.gateway.Some? && f.gateway.value.hostnames != [] then f.gateway.value.hostnames else [MainHost(f)],
               f.name, 80)
  }

  function APIRouteName(f: FreqUI, r: APIRoute): string {
    f.name + "-" + r.name
  }

  datatype NamedRoute = NamedRoute(name: string, spec: RouteSpec)

  function APINamedRoute(f: FreqUI, r: APIRoute): NamedRoute {
    NamedRoute(APIRouteName(f, r), BuildRoute(f, [r.name + "." + MainHost(f)], r.service, API_PORT))
  }

  /** The routes of Gateway mode, in order; valid is the DNS-1123 subdomain check on names. */
  function Routes(f: FreqUI, api: seq<APIRoute>, valid: string -> bool): seq<NamedRoute> {
    if api == [] then [NamedRoute(f.name, UIRoute(f))]
    else
      var before, r := Routes(f, api[..|api| - 1], valid), api[|api| - 1];
      if valid(APIRouteName(f, r)) then before + [APINamedRoute(f, r)] else before
  }

  /** The TradeBots left without a route because its name would not be valid. */
  function Skipped(f: FreqUI, api: seq<APIRoute>, valid: string -> bool): seq<string> {
    if api == [] then []
    else
      var before, r := Skipped(f, api[..|api| - 1], valid), api[|api| - 1];
      if valid(APIRouteName(f, r)) then before else before + [r.name]
  }

  /** Which routes there are, without the order they are built in: the UI's, and one for every TradeBot that was not
      skipped; every TradeBot has one or is named as skipped, never both. */
  lemma {:induction false} RoutesExactly(
      f: FreqUI, api: seq<APIRoute>, valid: string -> bool, n: NamedRoute, name: string)
    ensures n in Routes(f, api, valid)
       <==> n == NamedRoute(f.name, UIRoute(f))
            || exists r :: r in api && valid(APIRouteName(f, r)) && n == APINamedRoute(f, r)
    ensures name in Skipped(f, api, valid) <==> exists r :: r in api && r.name == name && !valid(APIRouteName(f, r))
  {
    if api != [] {
      RoutesExactly(f, api[..|api| - 1], valid, n, name);
      assert api == api[..|api| - 1] + [api[|api| - 1]];
    }
  }

  /** No TradeBot's route can take the place of the UI's own. */
  lemma {:induction false} UIRouteSurvives(f: FreqUI, api: seq<APIRoute>, valid: string -> bool)
    ensures f.name in AsMap(Routes(f, api, valid)) && AsMap(Routes(f, api, valid))[f.name] == UIRoute(f)
  {
    var rs := Routes(f, api, valid);
    if api == [] {
      assert AsMap(rs[..0]) == map[];
    } else {
      UIRouteSurvives(f, api[..|api| - 1], valid);
      var r := api[|api| - 1];
      if valid(APIRouteName(f, r)) {
        assert rs[..|rs| - 1] == Routes(f, api[..|api| - 1], valid);
        assert |APIRouteName(f, r)| > |f.name|;
      }
    }
  }

  function IngressRules(f: FreqUI, api: seq<APIRoute>): seq<Rule> {
    [Rule(MainHost(f), f.name, 80)]
      + seq(|api|, i requires 0 <= i < |api| => Rule(api[i].name + "." + MainHost(f), api[i].service, API_PORT))
  }

  function AsMap(rs: seq<NamedRoute>): map<string, RouteSpec> {
    if rs == [] then map[] else AsMap(rs[..|rs| - 1])[rs[|rs| - 1].name := rs[|rs| - 1].spec]
  }

  /** The exposure objects a FreqUI should control, from its spec and API routes alone. */
  datatype Owned = Owned(routes: map<string, RouteSpec>, ingresses: map<string, seq<Rule>>)

  function Desired(f: FreqUI, api: seq<APIRoute>, valid: string -> bool): Owned {
    match f.mode
    case GatewayMode => Owned(AsMap(Routes(f, api, valid)), map[])
    case IngressMode => Owned(map[], map[f.name := IngressRules(f, api)])
    case NoneMode => Owned(map[], map[])
  }

  function OwnedBy(c: Cluster, uid: string): Owned {
    Owned(map n | n in c.routes && c.routes[n].controller == Some(uid) :: c.routes[n].content,
          map n | n in c.ingresses && c.ingresses[n].controller == Some(uid) :: c.ingresses[n].content)
  }

  // ---------- Applying ----------

  datatype Reply = Accept | AlreadyOwned | Reject

  predicate Foreign<T>(m: map<string, Object<T>>, name: string, uid: string) {
    name in m && m[name].controller.Some? && m[name].controller.value != uid
  }

  /** The API server takes an apply unless another controller owns the name. */
  predicate Accepted<T>(m: map<string, Object<T>>, name: string, uid: string, reply: Reply) {
    reply == Accept && !Foreign(m, name, uid)
  }

  datatype ApplyState = ApplyState(c: Cluster, applied: set<string>, conflicts: seq<string>, failed: bool)

  /** The loop over the routes: a name conflict is noted and skipped, any other refusal ends it. */
  function ApplyRoutes(c: Cluster, uid: string, rs: seq<NamedRoute>, replies: seq<Reply>): ApplyState
    requires |replies| == |rs|
  {
    if rs == [] then ApplyState(c, {}, [], false)
    else
      var n := |rs| - 1;
      var before := ApplyRoutes(c, uid, rs[..n], replies[..n]);
      if before.failed then before
      else if Accepted(before.c.routes, rs[n].name, uid, replies[n]) then
        before.(c := before.c.(routes := before.c.routes[rs[n].name := Object(Some(uid), rs[n].spec)]),
                applied := before.applied + {rs[n].name})
      else if replies[n] == AlreadyOwned then before.(conflicts := before.conflicts + [rs[n].name])
      else before.(failed := true)
  }

  // ---------- Pruning ----------

  /** One HTTPRoute as the (possibly lagging) cache lists it. */
  datatype Listed = Listed(name: string, route: Route)

  predicate Selected(f: FreqUI, r: Route) {
    FREQUI_LABEL in r.content.labels && r.content.labels[FREQUI_LABEL] == f.name
  }

  predicate Doomed(f: FreqUI, desired: set<string>, l: Listed) {
    Selected(f, l.route) && l.name !in desired && l.route.controller == Some(f.uid)
  }

  /** The names the prune will delete, given what it was shown. */
  function DoomedNames(f: FreqUI, desired: set<string>, listed: seq<Listed>): set<string> {
    set l | l in listed && Doomed(f, desired, l) :: l.name
  }

  datatype PruneState = PruneState(c: Cluster, failed: bool)

  /** failAt: the listed item whose delete the server refuses, if it is reached. */
  function Prune(c: Cluster, f: FreqUI, desired: set<string>, listed: seq<Listed>, failAt: nat): PruneState {
    if listed == [] then PruneState(c, false)
    else
      var n := |listed| - 1;
      var before := Prune(c, f, desired, listed[..n], failAt);
      if before.failed || !Doomed(f, desired, listed[n]) then before
      else if failAt == n then before.(failed := true)
      else before.(c := before.c.(routes := before.c.routes - {listed[n].name}))
  }

  lemma {:induction false} PruneRemoves(c: Cluster, f: FreqUI, desired: set<string>, listed: seq<Listed>, failAt: nat)
    ensures var p := Prune(c, f, desired, listed, failAt);
            && p.c.ingresses == c.ingresses
            && p.c.routes == c.routes - (c.routes.Keys - p.c.routes.Keys)
            && c.routes.Keys - p.c.routes.Keys <= DoomedNames(f, desired, listed)
            && (!p.failed ==> p.c.routes == c.routes - DoomedNames(f, desired, listed))
  {
    if listed != [] {
      var n := |listed| - 1;
      PruneRemoves(c, f, desired, listed[..n], failAt);
      assert listed == listed[..n] + [listed[n]];
      assert DoomedNames(f, desired, listed)
          == DoomedNames(f, desired, listed[..n]) + if Doomed(f, desired, listed[n]) then {listed[n].name} else {};
    }
  }

  /** A prune that is not interrupted deletes exactly the routes it was shown with this FreqUI's label and as its own
      that are not wanted. */
  lemma {:induction false} PruneDeletesExactly(
    c: Cluster, f: FreqUI, desired: set<string>, listed: seq<Listed>, failAt: nat, n: string)
    requires !Prune(c, f, desired, listed, failAt).failed
    ensures
      var routes := Prune(c, f, desired, listed, failAt).c.routes;
      && (n in routes <==>
            n in c.routes && !(n !in desired && exists r: Route ::
              Listed(n, r) in listed && r.controller == Some(f.uid)
              && "freqtrade.io/frequi" in r.content.labels && r.content.labels["freqtrade.io/frequi"] == f.name))
      && (n in routes ==> routes[n] == c.routes[n])
  {
    PruneRemoves(c, f, desired, listed, failAt);
    if n in DoomedNames(f, desired, listed) {
      var l :| l in listed && Doomed(f, desired, l) && l.name == n;
      assert Listed(n, l.route) in listed;
    }
  }

  /** deleteOwnedIngress: nothing unless the Ingress it was shown is this FreqUI's own. */
  function DeleteIngress(c: Cluster, f: FreqUI, shown: Option<Ingress>): Cluster {
    if shown.Some? && shown.value.controller == Some(f.uid) then c.(ingresses := c.ingresses - {f.name}) else c
  }

  // ---------- reconcileExposure ----------

  datatype Env = Env(
    available: bool,                       // Gateway API was served at startup
    valid: string -> bool,
    routeReplies: seq<Reply>, ingressReply: Reply,
    listFails: bool, listed: seq<Listed>, failAt: nat,
    ingressReadFails: bool, shownIngress: Option<Ingress>, ingressDeleteFails: bool)

  datatype Outcome =
    | Err
    | NotInstalled
    | Conflict(names: seq<string>, skipped: seq<string>)   // every other route was still applied
    | Exposed

  datatype Step = Step(c: Cluster, outcome: Outcome)

  function PruneStep(c: Cluster, f: FreqUI, desired: set<string>, env: Env): PruneState {
    if !env.available then PruneState(c, false)
    else if env.listFails then PruneState(c, true)
    else Prune(c, f, desired, env.listed, env.failAt)
  }

  function IngressStep(c: Cluster, f: FreqUI, env: Env): PruneState {
    if env.ingressReadFails then PruneState(c, true)
    else if DeleteIngress(c, f, env.shownIngress) != c && env.ingressDeleteFails then PruneState(c, true)
    else PruneState(DeleteIngress(c, f, env.shownIngress), false)
  }

  function Reported(conflicts: seq<string>, skipped: seq<string>): Outcome {
    if conflicts == [] && skipped == [] then Exposed else Conflict(conflicts, skipped)
  }

  /** No error and nobody else held a wanted name. */
  predicate Clean(o: Outcome) {
    o.Exposed? || (o.Conflict? && o.names == [])
  }

  predicate EnvFits(f: FreqUI, api: seq<APIRoute>, env: Env) {
    |env.routeReplies| == |Routes(f, api, env.valid)|
  }

  function Reconcile(c: Cluster, f: FreqUI, api: seq<APIRoute>, env: Env): Step
    requires EnvFits(f, api, env)
  {
    match f.mode
    case GatewayMode =>
      if !env.available then Step(c, NotInstalled)
      else
        var a := ApplyRoutes(c, f.uid, Routes(f, api, env.valid), env.routeReplies);
        if a.failed then Step(a.c, Err)
        else
          var p := PruneStep(a.c, f, a.applied, env);
          if p.failed then Step(p.c, Err)
          else
            var d := IngressStep(p.c, f, env);
            Step(d.c, if d.failed then Err else Reported(a.conflicts, Skipped(f, api, env.valid)))
    case NoneMode =>
      var p := PruneStep(c, f, {}, env);
      if p.failed then Step(p.c, Err)
      else
        var d := IngressStep(p.c, f, env);
        Step(d.c, if d.failed then Err else Exposed)
    case IngressMode =>
      if Accepted(c.ingresses, f.name, f.uid, env.ingressReply) then
        var c1 := c.(ingresses := c.ingresses[f.name := Object(Some(f.uid), IngressRules(f, api))]);
        var p := PruneStep(c1, f, {}, env);
        Step(p.c, if p.failed then Err else Exposed)
      else Step(c, if env.ingressReply == AlreadyOwned then Conflict([f.name], []) else Err)
  }

  // ---------- Reads that are current ----------

  /** The cluster whose routes the prune of this reconcile is about. */
  function PrunedCluster(c: Cluster, f: FreqUI, api: seq<APIRoute>, env: Env): Cluster
    requires EnvFits(f, api, env)
  {
    if f.mode == GatewayMode then ApplyRoutes(c, f.uid, Routes(f, api, env.valid), env.routeReplies).c else c
  }

  ghost predicate ListingIsCurrent(routes: map<string, Route>, f: FreqUI, listed: seq<Listed>) {
    forall n, r :: (Listed(n, r) in listed && Selected(f, r)) <==> (n in routes && routes[n] == r && Selected(f, r))
  }

  ghost predicate ReadsAreCurrent(c: Cluster, f: FreqUI, api: seq<APIRoute>, env: Env)
    requires EnvFits(f, api, env)
  {
    && ListingIsCurrent(PrunedCluster(c, f, api, env).routes, f, env.listed)
    && env.shownIngress == if f.name in c.ingresses then Some(c.ingresses[f.name]) else None
  }

  /** Every route a FreqUI controls carries its label, and it controls no Ingress under another name. */
  ghost predicate Labelled(c: Cluster, name: string, uid: string) {
    && (forall n :: n in c.routes && c.routes[n].controller == Some(uid) ==>
          FREQUI_LABEL in c.routes[n].content.labels && c.routes[n].content.labels[FREQUI_LABEL] == name)
    && (forall n :: n in c.ingresses && c.ingresses[n].controller == Some(uid) ==> n == name)
  }

  lemma {:induction false} RoutesAreLabelled(f: FreqUI, api: seq<APIRoute>, valid: string -> bool)
    ensures forall r :: r in Routes(f, api, valid) ==>
              FREQUI_LABEL in r.spec.labels && r.spec.labels[FREQUI_LABEL] == f.name
  {
    if api != [] { RoutesAreLabelled(f, api[..|api| - 1], valid); }
  }

  lemma {:induction false} ApplyKeepsForeign(c: Cluster, uid: string, rs: seq<NamedRoute>, replies: seq<Reply>)
    requires |replies| == |rs|
    ensures var a := ApplyRoutes(c, uid, rs, replies);
            && a.c.ingresses == c.ingresses
            && forall n :: Foreign(c.routes, n, uid) ==> n in a.c.routes && a.c.routes[n] == c.routes[n]
  {
    if rs != [] {
      var k := |rs| - 1;
      ApplyKeepsForeign(c, uid, rs[..k], replies[..k]);
    }
  }

  /** Everything a pass of applies changed is now controlled by uid and is one of the routes. */
  ghost predicate ChangedAreOwn(
      before: map<string, Route>, after: map<string, Route>, uid: string, rs: seq<NamedRoute>)
  {
    forall n :: n in after ==>
      || (n in before && after[n] == before[n])
      || (after[n].controller == Some(uid) && NamedRoute(n, after[n].content) in rs)
  }

  lemma {:induction false} ApplyChangesOwn(c: Cluster, uid: string, rs: seq<NamedRoute>, replies: seq<Reply>)
    requires |replies| == |rs|
    ensures ChangedAreOwn(c.routes, ApplyRoutes(c, uid, rs, replies).c.routes, uid, rs)
  {
    if rs != [] {
      var k := |rs| - 1;
      ApplyChangesOwn(c, uid, rs[..k], replies[..k]);
      var b := ApplyRoutes(c, uid, rs[..k], replies[..k]).c.routes;
      var a := ApplyRoutes(c, uid, rs, replies).c.routes;
      assert rs == rs[..k] + [rs[k]];
      forall n | n in a
        ensures || (n in c.routes && a[n] == c.routes[n])
                || (a[n].controller == Some(uid) && NamedRoute(n, a[n].content) in rs)
      {
        if n in b && a[n] == b[n] {
        } else {
          assert n == rs[k].name;
        }
      }
    }
  }

  function Overlay(uid: string, specs: map<string, RouteSpec>): map<string, Route> {
    map n | n in specs :: Object(Some(uid), specs[n])
  }

  lemma {:induction false} ApplyAll(c: Cluster, uid: string, rs: seq<NamedRoute>, replies: seq<Reply>)
    requires |replies| == |rs|
    requires !ApplyRoutes(c, uid, rs, replies).failed && ApplyRoutes(c, uid, rs, replies).conflicts == []
    ensures var a := ApplyRoutes(c, uid, rs, replies);
            a.applied == AsMap(rs).Keys && a.c.routes == c.routes + Overlay(uid, AsMap(rs))
  {
    if rs != [] {
      var k := |rs| - 1;
      ApplyAll(c, uid, rs[..k], replies[..k]);
      assert Overlay(uid, AsMap(rs)) == Overlay(uid, AsMap(rs[..k]))[rs[k].name := Object(Some(uid), rs[k].spec)];
    }
  }

  // ---------- Whose objects are touched ----------

  ghost predicate ForeignKept(c: Cluster, c': Cluster, uid: string) {
    && (forall n :: Foreign(c.routes, n, uid) ==> n in c'.routes && c'.routes[n] == c.routes[n])
    && (forall n :: Foreign(c.ingresses, n, uid) ==> n in c'.ingresses && c'.ingresses[n] == c.ingresses[n])
  }

  /** A prune that is not interrupted spares every object of another controller exactly when none of the names it is
      about to delete belongs to one by now: the delete carries no precondition, so what the cache showed decides. */
  lemma {:induction false} PruneSparesForeignExactly(
    c: Cluster, f: FreqUI, desired: set<string>, listed: seq<Listed>, failAt: nat)
    requires !Prune(c, f, desired, listed, failAt).failed
    ensures ForeignKept(c, Prune(c, f, desired, listed, failAt).c, f.uid)
       <==> forall n :: n in DoomedNames(f, desired, listed) ==> !Foreign(c.routes, n, f.uid)
  {
    PruneRemoves(c, f, desired, listed, failAt);
  }

  /** Deleting the Ingress spares every object of another controller exactly when it was not shown as this FreqUI's own
      while it belongs to somebody else by now: this delete carries no precondition either. */
  lemma IngressSparedExactly(c: Cluster, f: FreqUI, env: Env)
    requires !IngressStep(c, f, env).failed
    ensures ForeignKept(c, IngressStep(c, f, env).c, f.uid)
       <==> !(env.shownIngress.Some? && env.shownIngress.value.controller == Some(f.uid)
              && Foreign(c.ingresses, f.name, f.uid))
  {
    var c' := IngressStep(c, f, env).c;
    assert c'.routes == c.routes;
    if Foreign(c.ingresses, f.name, f.uid) && env.shownIngress.Some?
       && env.shownIngress.value.controller == Some(f.uid) {
      assert f.name in c.ingresses && f.name !in c'.ingresses;
    }
  }

  /** The lagging read that does it: an Ingress this FreqUI once had, deleted and made anew by another controller. */
  lemma StaleReadDeletesForeignIngress(f: FreqUI, other: string, rules: seq<Rule>, env: Env)
    requires other != f.uid && !env.ingressReadFails && !env.ingressDeleteFails
    requires env.shownIngress == Some(Object(Some(f.uid), rules))
    ensures var c := Cluster(map[], map[f.name := Object(Some(other), rules)]);
            !ForeignKept(c, IngressStep(c, f, env).c, f.uid) && f.name !in IngressStep(c, f, env).c.ingresses
  {
    var c := Cluster(map[], map[f.name := Object(Some(other), rules)]);
    assert Foreign(c.ingresses, f.name, f.uid);
    IngressSparedExactly(c, f, env);
  }

  lemma {:induction false} CurrentListingDoomsOwn(c: Cluster, f: FreqUI, desired: set<string>, listed: seq<Listed>)
    requires ListingIsCurrent(c.routes, f, listed)
    ensures forall n :: n in DoomedNames(f, desired, listed) <==>
              n in c.routes && n !in desired && c.routes[n].controller == Some(f.uid) && Selected(f, c.routes[n])
  {
    forall n ensures n in DoomedNames(f, desired, listed) <==>
              n in c.routes && n !in desired && c.routes[n].controller == Some(f.uid) && Selected(f, c.routes[n])
    {
      if n in DoomedNames(f, desired, listed) {
        var l :| l in listed && Doomed(f, desired, l) && l.name == n;
        assert Listed(n, l.route) in listed;
      } else if n in c.routes && Selected(f, c.routes[n]) {
        assert Listed(n, c.routes[n]) in listed;
      }
    }
  }

  lemma PruneKeepsForeign(c: Cluster, f: FreqUI, desired: set<string>, env: Env)
    requires ListingIsCurrent(c.routes, f, env.listed)
    ensures ForeignKept(c, PruneStep(c, f, desired, env).c, f.uid)
  {
    PruneRemoves(c, f, desired, env.listed, env.failAt);
    CurrentListingDoomsOwn(c, f, desired, env.listed);
  }

  /** With current reads, no reconcile, however it ends, deletes or changes an object another UID controls. */
  lemma {:induction false} ForeignObjectsAreSafe(c: Cluster, f: FreqUI, api: seq<APIRoute>, env: Env)
    requires EnvFits(f, api, env) && ReadsAreCurrent(c, f, api, env)
    ensures ForeignKept(c, Reconcile(c, f, api, env).c, f.uid)
  {
    match f.mode
    case GatewayMode =>
      ApplyKeepsForeign(c, f.uid, Routes(f, api, env.valid), env.routeReplies);
      var a := ApplyRoutes(c, f.uid, Routes(f, api, env.valid), env.routeReplies);
      PruneKeepsForeign(a.c, f, a.applied, env);
      PruneRemoves(a.c, f, a.applied, env.listed, env.failAt);
    case NoneMode =>
      PruneKeepsForeign(c, f, {}, env);
      PruneRemoves(c, f, {}, env.listed, env.failAt);
    case IngressMode =>
      PruneKeepsForeign(c, f, {}, env);
      var c1 := c.(ingresses := c.ingresses[f.name := Object(Some(f.uid), IngressRules(f, api))]);
      PruneKeepsForeign(c1, f, {}, env);
      PruneRemoves(c1, f, {}, env.listed, env.failAt);
  }

  /** With a lagging cache it can: a route this FreqUI once had, deleted and taken over by another controller since the
      cache last looked, is deleted by name. */
  lemma StaleListingDeletesForeign(f: FreqUI, other: string, spec: RouteSpec, env: Env)
    requires f.mode == NoneMode && other != f.uid
    requires FREQUI_LABEL in spec.labels && spec.labels[FREQUI_LABEL] == f.name
    requires env.available && !env.listFails && env.failAt > 0
    requires env.listed == [Listed("ui", Object(Some(f.uid), spec))]
    ensures !ForeignKept(Cluster(map["ui" := Object(Some(other), spec)], map[]),
                         PruneStep(Cluster(map["ui" := Object(Some(other), spec)], map[]), f, {}, env).c, f.uid)
  {
    var c := Cluster(map["ui" := Object(Some(other), spec)], map[]);
    assert Prune(c, f, {}, env.listed[..0], env.failAt) == PruneState(c, false);
    assert Doomed(f, {}, env.listed[0]);
    assert Foreign(c.routes, "ui", f.uid);
  }

  // ---------- The result depends on the spec alone ----------

  /** A prune that is not interrupted leaves exactly the wanted names exactly when every other route this FreqUI
      controls was among those it was shown as its own. */
  lemma PruneLeavesWantedExactly(c: Cluster, f: FreqUI, desired: set<string>, listed: seq<Listed>, failAt: nat)
    requires !Prune(c, f, desired, listed, failAt).failed
    ensures OwnedBy(Prune(c, f, desired, listed, failAt).c, f.uid).routes.Keys <= desired
       <==> forall n :: n in c.routes && c.routes[n].controller == Some(f.uid) && n !in desired ==>
                        n in DoomedNames(f, desired, listed)
  {
    PruneRemoves(c, f, desired, listed, failAt);
    var p := Prune(c, f, desired, listed, failAt).c;
    assert forall n :: n in c.routes && c.routes[n].controller == Some(f.uid) && n in p.routes ==>
                         n in OwnedBy(p, f.uid).routes.Keys;
  }

  lemma CurrentPrune(c: Cluster, f: FreqUI, desired: set<string>, env: Env)
    requires env.available && !PruneStep(c, f, desired, env).failed
    requires ListingIsCurrent(c.routes, f, env.listed) && Labelled(c, f.name, f.uid)
    ensures var p := PruneStep(c, f, desired, env).c;
            && p.ingresses == c.ingresses
            && OwnedBy(p, f.uid).routes
               == map n | n in c.routes && c.routes[n].controller == Some(f.uid) && n in desired :: c.routes[n].content
  {
    PruneRemoves(c, f, desired, env.listed, env.failAt);
    CurrentListingDoomsOwn(c, f, desired, env.listed);
  }

  lemma {:induction false} ApplyKeepsLabelled(
    c: Cluster, f: FreqUI, api: seq<APIRoute>, valid: string -> bool, replies: seq<Reply>, name: string, uid: string)
    requires |replies| == |Routes(f, api, valid)| && (f.uid == uid ==> f.name == name) && Labelled(c, name, uid)
    ensures Labelled(ApplyRoutes(c, f.uid, Routes(f, api, valid), replies).c, name, uid)
  {
    var rs := Routes(f, api, valid);
    ApplyChangesOwn(c, f.uid, rs, replies);
    ApplyKeepsForeign(c, f.uid, rs, replies);
    RoutesAreLabelled(f, api, valid);
    var a := ApplyRoutes(c, f.uid, rs, replies).c;
    forall n | n in a.routes && a.routes[n].controller == Some(uid)
      ensures FREQUI_LABEL in a.routes[n].content.labels && a.routes[n].content.labels[FREQUI_LABEL] == name
    {
      if n in c.routes && a.routes[n] == c.routes[n] {
      } else {
        assert NamedRoute(n, a.routes[n].content) in rs;
      }
    }
  }

  lemma IngressStepEffect(c: Cluster, f: FreqUI, env: Env)
    requires Labelled(c, f.name, f.uid)
    requires env.shownIngress == if f.name in c.ingresses then Some(c.ingresses[f.name]) else None
    ensures IngressStep(c, f, env).c.routes == c.routes
    ensures !IngressStep(c, f, env).failed ==> OwnedBy(IngressStep(c, f, env).c, f.uid).ingresses == map[]
  {}

  lemma OwnRoutesDependOnRoutes(c: Cluster, c': Cluster, uid: string)
    requires c.routes == c'.routes
    ensures OwnedBy(c, uid).routes == OwnedBy(c', uid).routes
  {}

  lemma {:induction false} GatewayRoutes(c: Cluster, f: FreqUI, rs: seq<NamedRoute>, env: Env)
    requires |rs| == |env.routeReplies| && env.available && f.mode == GatewayMode
    requires Labelled(ApplyRoutes(c, f.uid, rs, env.routeReplies).c, f.name, f.uid)
    requires ListingIsCurrent(ApplyRoutes(c, f.uid, rs, env.routeReplies).c.routes, f, env.listed)
    requires var a := ApplyRoutes(c, f.uid, rs, env.routeReplies);
             !a.failed && a.conflicts == [] && !PruneStep(a.c, f, a.applied, env).failed
    ensures var a := ApplyRoutes(c, f.uid, rs, env.routeReplies);
            OwnedBy(PruneStep(a.c, f, a.applied, env).c, f.uid).routes == AsMap(rs)
  {
    var a := ApplyRoutes(c, f.uid, rs, env.routeReplies);
    ApplyAll(c, f.uid, rs, env.routeReplies);
    CurrentPrune(a.c, f, a.applied, env);
  }

  /** The main result: whatever modes, specs and API routes this FreqUI went through before, a reconcile that ends
      without error and without losing a name to somebody else, with Gateway API available and current reads, leaves it
      controlling exactly the objects its current spec and API routes ask for. */
  lemma {:induction false} ExposureFollowsSpec(c: Cluster, f: FreqUI, api: seq<APIRoute>, env: Env)
    requires EnvFits(f, api, env) && ReadsAreCurrent(c, f, api, env) && env.available
    requires Labelled(c, f.name, f.uid)
    requires Clean(Reconcile(c, f, api, env).outcome)
    ensures OwnedBy(Reconcile(c, f, api, env).c, f.uid) == Desired(f, api, env.valid)
  {
    match f.mode
    case GatewayMode => GatewayFollowsSpec(c, f, api, env);
    case NoneMode =>
      var p := PruneStep(c, f, {}, env);
      CurrentPrune(c, f, {}, env);
      PruneKeepsLabelled(c, f, {}, env, f.name, f.uid);
      IngressStepEffect(p.c, f, env);
      OwnRoutesDependOnRoutes(p.c, IngressStep(p.c, f, env).c, f.uid);
    case IngressMode => IngressFollowsSpec(c, f, api, env);
  }

  lemma {:induction false} GatewayFollowsSpec(c: Cluster, f: FreqUI, api: seq<APIRoute>, env: Env)
    requires EnvFits(f, api, env) && ReadsAreCurrent(c, f, api, env) && env.available && f.mode == GatewayMode
    requires Labelled(c, f.name, f.uid)
    requires Clean(Reconcile(c, f, api, env).outcome)
    ensures OwnedBy(Reconcile(c, f, api, env).c, f.uid) == Desired(f, api, env.valid)
  {
    var rs := Routes(f, api, env.valid);
    var a := ApplyRoutes(c, f.uid, rs, env.routeReplies);
    var p := PruneStep(a.c, f, a.applied, env);
    ApplyKeepsLabelled(c, f, api, env.valid, env.routeReplies, f.name, f.uid);
    ApplyKeepsForeign(c, f.uid, rs, env.routeReplies);
    GatewayRoutes(c, f, rs, env);
    PruneKeepsLabelled(a.c, f, a.applied, env, f.name, f.uid);
    PruneRemoves(a.c, f, a.applied, env.listed, env.failAt);
    IngressStepEffect(p.c, f, env);
    OwnRoutesDependOnRoutes(p.c, IngressStep(p.c, f, env).c, f.uid);
  }

  lemma {:induction false} IngressFollowsSpec(c: Cluster, f: FreqUI, api: seq<APIRoute>, env: Env)
    requires EnvFits(f, api, env) && ReadsAreCurrent(c, f, api, env) && env.available && f.mode == IngressMode
    requires Labelled(c, f.name, f.uid)
    requires Clean(Reconcile(c, f, api, env).outcome)
    ensures OwnedBy(Reconcile(c, f, api, env).c, f.uid) == Desired(f, api, env.valid)
  {
    var c1 := c.(ingresses := c.ingresses[f.name := Object(Some(f.uid), IngressRules(f, api))]);
    CurrentPrune(c1, f, {}, env);
    var p := PruneStep(c1, f, {}, env).c;
    assert OwnedBy(p, f.uid).ingresses == map[f.name := IngressRules(f, api)];
  }

  /** The host a FreqUI is reached at. */
  predicate IsMainHost(f: FreqUI, host: string) {
    if f.host == "" then host == f.name + "." + f.namespace + ".svc.cluster.local" else host == f.host
  }

  /** In Ingress mode that means: it controls one Ingress, under its own name, which sends its main host to its own
      service, sends for every API route the host of that name below the main host to that route's service, and sends
      nothing else anywhere. */
  lemma {:induction false} IngressServesEveryHost(c: Cluster, f: FreqUI, api: seq<APIRoute>, env: Env, main: string)
    requires EnvFits(f, api, env) && ReadsAreCurrent(c, f, api, env) && env.available
    requires Labelled(c, f.name, f.uid) && f.mode == IngressMode && IsMainHost(f, main)
    requires Clean(Reconcile(c, f, api, env).outcome)
    ensures
      var c' := Reconcile(c, f, api, env).c;
      && f.name in c'.ingresses && c'.ingresses[f.name].controller == Some(f.uid)
      && var rules := c'.ingresses[f.name].content;
      && Rule(main, f.name, 80) in rules
      && (forall r :: r in api ==> Rule(r.name + "." + main, r.service, 8080) in rules)
      && (forall x :: x in rules ==>
            x == Rule(main, f.name, 80) || exists r :: r in api && x == Rule(r.name + "." + main, r.service, 8080))
      && OwnedBy(c', f.uid).routes == map[] && OwnedBy(c', f.uid).ingresses.Keys == {f.name}
  {
    ExposureFollowsSpec(c, f, api, env);
    assert f.name in OwnedBy(Reconcile(c, f, api, env).c, f.uid).ingresses;
    var rules := IngressRules(f, api);
    assert rules[0] == Rule(main, f.name, 80);
    forall r | r in api ensures Rule(r.name + "." + main, r.service, 8080) in rules {
      var i :| 0 <= i < |api| && api[i] == r;
      assert rules[i + 1] == Rule(r.name + "." + main, r.service, 8080);
    }
    forall x | x in rules && x != rules[0]
      ensures exists r :: r in api && x == Rule(r.name + "." + main, r.service, 8080)
    {
      var i :| 0 <= i < |rules| && rules[i] == x;
      assert api[i - 1] in api;
    }
  }

  /** A stored route as the operator should have made it: hosts, service and port as given, the gateways, annotations
      and labels of the spec, and the operator's own two labels, which win. */
  ghost predicate RouteServes(f: FreqUI, x: RouteSpec, hostnames: seq<string>, service: string, port: int) {
    && x.hostnames == hostnames && x.backend == service && x.port == port
    && x.parentRefs == (if f.gateway.Some? then f.gateway.value.parentRefs else [])
    && x.annotations == (if f.gateway.Some? then f.gateway.value.annotations else map[])
    && "freqtrade.io/frequi" in x.labels && x.labels["freqtrade.io/frequi"] == f.name
    && "app.kubernetes.io/managed-by" in x.labels
    && x.labels["app.kubernetes.io/managed-by"] == "freqtrade-operator"
    && forall k :: k !in {"freqtrade.io/frequi", "app.kubernetes.io/managed-by"} ==>
         if f.gateway.Some? && k in f.gateway.value.labels then
           k in x.labels && x.labels[k] == f.gateway.value.labels[k]
         else k !in x.labels
  }

  lemma {:induction false} BuiltRouteServes(f: FreqUI, hostnames: seq<string>, service: string, port: int)
    ensures RouteServes(f, BuildRoute(f, hostnames, service, port), hostnames, service, port)
  {
    assert FREQUI_LABEL[0] != MANAGED_BY_LABEL[0];
  }

  lemma {:induction false} AsMapExactly(rs: seq<NamedRoute>, n: string)
    ensures n in AsMap(rs) <==> exists i :: 0 <= i < |rs| && rs[i].name == n
    ensures n in AsMap(rs) ==> NamedRoute(n, AsMap(rs)[n]) in rs
  {
    if rs != [] {
      var k := |rs| - 1;
      AsMapExactly(rs[..k], n);
      assert rs == rs[..k] + [rs[k]];
    }
  }

  /** And in Gateway mode: it controls no Ingress; its own route, under its own name, serves the spec's hostnames, or
      its main host if there are none; and it controls besides exactly one route for each API route with a valid name,
      which serves the host of that name below the main host from that route's service. */
  lemma {:induction false} RoutesServeEveryHost(
    c: Cluster, f: FreqUI, api: seq<APIRoute>, env: Env, main: string, n: string)
    requires EnvFits(f, api, env) && ReadsAreCurrent(c, f, api, env) && env.available
    requires Labelled(c, f.name, f.uid) && f.mode == GatewayMode && IsMainHost(f, main)
    requires Clean(Reconcile(c, f, api, env).outcome)
    ensures
      var owned := OwnedBy(Reconcile(c, f, api, env).c, f.uid);
      var own := if f.gateway.Some? && f.gateway.value.hostnames != [] then f.gateway.value.hostnames else [main];
      && owned.ingresses == map[]
      && f.name in owned.routes && RouteServes(f, owned.routes[f.name], own, f.name, 80)
      && (n != f.name ==>
            (n in owned.routes <==> exists r :: r in api && n == f.name + "-" + r.name && env.valid(n)))
      && (n != f.name && n in owned.routes ==>
            exists r :: r in api && n == f.name + "-" + r.name && env.valid(n)
                        && RouteServes(f, owned.routes[n], [r.name + "." + main], r.service, 8080))
  {
    ExposureFollowsSpec(c, f, api, env);
    UIRouteSurvives(f, api, env.valid);
    BuiltRouteServes(f, UIRoute(f).hostnames, f.name, 80);
    var rs := Routes(f, api, env.valid);
    AsMapExactly(rs, n);
    if n in AsMap(rs) && n != f.name { OwnRoute(f, api, env.valid, n, AsMap(rs)[n], main); }
    if r :| r in api && n == f.name + "-" + r.name && env.valid(n) {
      RoutesExactly(f, api, env.valid, APINamedRoute(f, r), "");
      assert APINamedRoute(f, r) in rs && APINamedRoute(f, r).name == n;
    }
  }

  lemma {:induction false} OwnRoute(
    f: FreqUI, api: seq<APIRoute>, valid: string -> bool, n: string, x: RouteSpec, main: string)
    requires NamedRoute(n, x) in Routes(f, api, valid) && n != f.name && IsMainHost(f, main)
    ensures exists r :: r in api && n == f.name + "-" + r.name && valid(n)
                        && RouteServes(f, x, [r.name + "." + main], r.service, 8080)
  {
    RoutesExactly(f, api, valid, NamedRoute(n, x), "");
    var r :| r in api && valid(APIRouteName(f, r)) && NamedRoute(n, x) == APINamedRoute(f, r);
    BuiltRouteServes(f, [r.name + "." + main], r.service, 8080);
  }

  /** Without Gateway API a reconcile that meets no error leaves the Ingress as the spec wants it exactly when it is not
      in Gateway mode with an Ingress left from before: that reconcile changes nothing at all. Routes stay untouched in
      every mode, so they are as wanted exactly when they were before. */
  lemma {:induction false} WithoutGatewayAPI(c: Cluster, f: FreqUI, api: seq<APIRoute>, env: Env)
    requires EnvFits(f, api, env) && ReadsAreCurrent(c, f, api, env) && !env.available
    requires Labelled(c, f.name, f.uid)
    requires Reconcile(c, f, api, env).outcome in {Exposed, NotInstalled}
    ensures var c', d := Reconcile(c, f, api, env).c, Desired(f, api, env.valid);
            && (OwnedBy(c', f.uid).ingresses == d.ingresses
                <==> !(f.mode == GatewayMode && f.name in c.ingresses && c.ingresses[f.name].controller == Some(f.uid)))
            && c'.routes == c.routes
            && (f.mode == GatewayMode ==> c' == c)
  {
    var c' := Reconcile(c, f, api, env).c;
    match f.mode
    case GatewayMode =>
      if f.name in c.ingresses && c.ingresses[f.name].controller == Some(f.uid) {
        assert f.name in OwnedBy(c, f.uid).ingresses;
      } else {
        assert OwnedBy(c, f.uid).ingresses == map[];
      }
    case NoneMode => IngressStepEffect(c, f, env);
    case IngressMode =>
      assert c' == c.(ingresses := c.ingresses[f.name := Object(Some(f.uid), IngressRules(f, api))]);
      assert OwnedBy(c', f.uid).ingresses == map[f.name := IngressRules(f, api)];
  }

  // ---------- How a reconcile ends ----------

  /** Another controller owns the name, or the server refuses anyway. */
  predicate Refused(c: Cluster, f: FreqUI, name: string, reply: Reply) {
    reply != Accept || (name in c.routes && c.routes[name].controller.Some? && c.routes[name].controller.value != f.uid)
  }

  lemma {:induction false} ApplyEnds(c: Cluster, f: FreqUI, rs: seq<NamedRoute>, replies: seq<Reply>, name: string)
    requires |replies| == |rs|
    ensures
      var a := ApplyRoutes(c, f.uid, rs, replies);
      && (forall n :: Foreign(a.c.routes, n, f.uid) <==> Foreign(c.routes, n, f.uid))
      && (a.failed <==>
          exists i :: 0 <= i < |rs| && Refused(c, f, rs[i].name, replies[i]) && replies[i] != AlreadyOwned)
      && (!a.failed ==>
            (name in a.conflicts <==>
             exists i :: 0 <= i < |rs| && rs[i].name == name && Refused(c, f, rs[i].name, replies[i])))
  {
    if rs != [] {
      var k := |rs| - 1;
      ApplyEnds(c, f, rs[..k], replies[..k], name);
      assert forall i :: 0 <= i < k ==> rs[..k][i] == rs[i] && replies[..k][i] == replies[i];
      assert Accepted(ApplyRoutes(c, f.uid, rs[..k], replies[..k]).c.routes, rs[k].name, f.uid, replies[k])
        <==> !Refused(c, f, rs[k].name, replies[k]);
    }
  }

  lemma {:induction false} PruneFailsExactly(
    c: Cluster, f: FreqUI, desired: set<string>, listed: seq<Listed>, failAt: nat)
    ensures Prune(c, f, desired, listed, failAt).failed
       <==> failAt < |listed| && Doomed(f, desired, listed[failAt])
  {
    if listed != [] { PruneFailsExactly(c, f, desired, listed[..|listed| - 1], failAt); }
  }

  /** No read and no delete fails. */
  predicate Untroubled(env: Env) {
    !env.listFails && env.failAt >= |env.listed| && !env.ingressReadFails && !env.ingressDeleteFails
  }

  /** In Gateway mode a reconcile whose reads and deletes go through fails exactly when a route is refused for another
      reason than belonging to somebody else. Otherwise it reports the names somebody else holds and the TradeBots whose
      route would have no valid name, all of them and no others, and is exposed without more exactly when there are
      none. */
  lemma {:induction false} GatewayEndsExactly(c: Cluster, f: FreqUI, api: seq<APIRoute>, env: Env, name: string)
    requires EnvFits(f, api, env) && f.mode == GatewayMode && env.available && Untroubled(env)
    ensures
      var o, rs := Reconcile(c, f, api, env).outcome, Routes(f, api, env.valid);
      var held := exists i :: 0 <= i < |rs| && rs[i].name == name && Refused(c, f, name, env.routeReplies[i]);
      var invalid := exists r :: r in api && r.name == name && !env.valid(f.name + "-" + name);
      && (o.Err? <==> exists i :: 0 <= i < |rs| && Refused(c, f, rs[i].name, env.routeReplies[i])
                                  && env.routeReplies[i] != AlreadyOwned)
      && o != NotInstalled
      && (o.Exposed? ==> !held && !invalid)
      && (o.Conflict? ==> (name in o.names <==> held) && (name in o.skipped <==> invalid))
      && (o.Conflict? ==> o.names != [] || o.skipped != [])
  {
    var rs := Routes(f, api, env.valid);
    ApplyEnds(c, f, rs, env.routeReplies, name);
    var a := ApplyRoutes(c, f.uid, rs, env.routeReplies);
    PruneFailsExactly(a.c, f, a.applied, env.listed, env.failAt);
    RoutesExactly(f, api, env.valid, NamedRoute(f.name, UIRoute(f)), name);
  }

  /** In the other modes such a reconcile ends exposed, except that an Ingress held by somebody else is a conflict and
      one refused otherwise an error; and Gateway mode without Gateway API says just that. */
  lemma {:induction false} OtherwiseEndsExactly(c: Cluster, f: FreqUI, api: seq<APIRoute>, env: Env)
    requires EnvFits(f, api, env) && Untroubled(env)
    ensures
      var o := Reconcile(c, f, api, env).outcome;
      && (f.mode == GatewayMode && !env.available ==> o == NotInstalled)
      && (f.mode == NoneMode ==> o == Exposed)
      && (f.mode == IngressMode ==>
            var held := f.name in c.ingresses && c.ingresses[f.name].controller.Some?
                        && c.ingresses[f.name].controller.value != f.uid;
            o == if env.ingressReply == Accept && !held then Exposed
                 else if env.ingressReply == AlreadyOwned then Conflict([f.name], []) else Err)
  {
    PruneFailsExactly(c, f, {}, env.listed, env.failAt);
    var c1 := c.(ingresses := c.ingresses[f.name := Object(Some(f.uid), IngressRules(f, api))]);
    PruneFailsExactly(c1, f, {}, env.listed, env.failAt);
  }

  // ---------- Over runs ----------

  datatype Event =
    | Reconciled(f: FreqUI, api: seq<APIRoute>, env: Env)   // any FreqUI of the namespace, any outcome, any reads
    | RouteRemoved(name: string)                            // by a user or garbage collection
    | IngressRemoved(name: string)
    | RouteByOther(name: string, route: Route)              // an object nobody, or somebody else, controls
    | IngressByOther(name: string, ingress: Ingress)

  function Next(c: Cluster, e: Event): Cluster {
    match e
    case Reconciled(f, api, env) => if EnvFits(f, api, env) then Reconcile(c, f, api, env).c else c
    case RouteRemoved(n) => c.(routes := c.routes - {n})
    case IngressRemoved(n) => c.(ingresses := c.ingresses - {n})
    case RouteByOther(n, r) => c.(routes := c.routes[n := r])
    case IngressByOther(n, i) => c.(ingresses := c.ingresses[n := i])
  }

  function Run(c: Cluster, events: seq<Event>): Cluster {
    if events == [] then c else Next(Run(c, events[..|events| - 1]), events[|events| - 1])
  }

  /** uid belongs to one FreqUI called name, and only its reconciler makes objects it controls. */
  ghost predicate Identity(e: Event, name: string, uid: string) {
    match e
    case Reconciled(f, _, _) => f.uid == uid ==> f.name == name
    case RouteByOther(_, r) => r.controller != Some(uid)
    case IngressByOther(_, i) => i.controller != Some(uid)
    case _ => true
  }

  lemma PruneKeepsLabelled(c: Cluster, f: FreqUI, desired: set<string>, env: Env, name: string, uid: string)
    requires Labelled(c, name, uid)
    ensures Labelled(PruneStep(c, f, desired, env).c, name, uid)
  {
    PruneRemoves(c, f, desired, env.listed, env.failAt);
  }

  lemma NextKeepsLabelled(c: Cluster, e: Event, name: string, uid: string)
    requires Labelled(c, name, uid) && Identity(e, name, uid)
    ensures Labelled(Next(c, e), name, uid)
  {
    if e.Reconciled? && EnvFits(e.f, e.api, e.env) {
      var f, api, env := e.f, e.api, e.env;
      match f.mode
      case GatewayMode =>
        var a := ApplyRoutes(c, f.uid, Routes(f, api, env.valid), env.routeReplies);
        ApplyKeepsLabelled(c, f, api, env.valid, env.routeReplies, name, uid);
        PruneKeepsLabelled(a.c, f, a.applied, env, name, uid);
      case NoneMode =>
        PruneKeepsLabelled(c, f, {}, env, name, uid);
      case IngressMode =>
        var c1 := c.(ingresses := c.ingresses[f.name := Object(Some(f.uid), IngressRules(f, api))]);
        PruneKeepsLabelled(c1, f, {}, env, name, uid);
    }
  }

  lemma {:induction false} RunKeepsLabelled(c: Cluster, events: seq<Event>, name: string, uid: string)
    requires Labelled(c, name, uid) && forall e :: e in events ==> Identity(e, name, uid)
    ensures Labelled(Run(c, events), name, uid)
  {
    if events != [] {
      RunKeepsLabelled(c, events[..|events| - 1], name, uid);
      NextKeepsLabelled(Run(c, events[..|events| - 1]), events[|events| - 1], name, uid);
    }
  }

  /** History independence: two namespaces with any two pasts (failed reconciles, lagging reads, other FreqUIs, users),
      after one clean reconcile each of the same spec, have the FreqUI control the same objects. */
  lemma {:induction false} HistoryDoesNotMatter(
    past1: seq<Event>, past2: seq<Event>, f: FreqUI, api: seq<APIRoute>, env1: Env, env2: Env)
    requires forall e :: e in past1 ==> Identity(e, f.name, f.uid)
    requires forall e :: e in past2 ==> Identity(e, f.name, f.uid)
    requires env1.valid == env2.valid && env1.available && env2.available
    requires EnvFits(f, api, env1) && EnvFits(f, api, env2)
    requires ReadsAreCurrent(Run(Cluster(map[], map[]), past1), f, api, env1)
    requires ReadsAreCurrent(Run(Cluster(map[], map[]), past2), f, api, env2)
    requires Clean(Reconcile(Run(Cluster(map[], map[]), past1), f, api, env1).outcome)
    requires Clean(Reconcile(Run(Cluster(map[], map[]), past2), f, api, env2).outcome)
    ensures OwnedBy(Reconcile(Run(Cluster(map[], map[]), past1), f, api, env1).c, f.uid)
         == OwnedBy(Reconcile(Run(Cluster(map[], map[]), past2), f, api, env2).c, f.uid)
         == Desired(f, api, env1.valid)
  {
    RunKeepsLabelled(Cluster(map[], map[]), past1, f.name, f.uid);
    RunKeepsLabelled(Cluster(map[], map[]), past2, f.name, f.uid);
    ExposureFollowsSpec(Run(Cluster(map[], map[]), past1), f, api, env1);
    ExposureFollowsSpec(Run(Cluster(map[], map[]), past2), f, api, env2);
  }
}
