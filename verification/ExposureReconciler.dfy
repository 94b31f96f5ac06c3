/** The exposure half of the FreqUI reconciler as it runs: loops that build, apply and prune routes against a namespace
    they change one object at a time, shown to be Exposure's step; and the loop that reads the routes' own status. */
module ExposureReconciler {
  import opened Wrappers
  import opened Conditions
  import opened Exposure

  /** BuildFreqUIHTTPRoutes. */
  method BuildHTTPRoutes(f: FreqUI, api: seq<APIRoute>, valid: string -> bool)
    returns (routes: seq<NamedRoute>, skipped: seq<string>)
    ensures routes == Routes(f, api, valid) && skipped == Skipped(f, api, valid)
  {
    var parentRefs, labels, annotations := [], map[], map[];
    if f.gateway.Some? {
      var g := f.gateway.value;
      parentRefs, annotations, labels := g.parentRefs, g.annotations, g.labels;
    }
    labels := labels[FREQUI_LABEL := f.name][MANAGED_BY_LABEL := "freqtrade-operator"];
    var uiHostnames := [MainHost(f)];
    if f.gateway.Some? && |f.gateway.value.hostnames| > 0 { uiHostnames := f.gateway.value.hostnames; }
    routes := [NamedRoute(f.name, RouteSpec(labels, annotations, uiHostnames, parentRefs, f.name, 80))];
    skipped := [];
    var i := 0;
    while i < |api|
      invariant i <= |api|
      invariant labels == RouteLabels(f)
      invariant routes == Routes(f, api[..i], valid) && skipped == Skipped(f, api[..i], valid)
    {
      assert api[..i + 1][..i] == api[..i];
      var name := f.name + "-" + api[i].name;
      if valid(name) {
        var host := api[i].name + "." + MainHost(f);
        routes := routes
          + [NamedRoute(name, RouteSpec(labels, annotations, [host], parentRefs, api[i].service, API_PORT))];
      } else {
        skipped := skipped + [api[i].name];
      }
      i := i + 1;
    }
    assert api[..|api|] == api;
  }

  class Namespace {
    var routes: map<string, Route>
    var ingresses: map<string, Ingress>

    ghost function View(): Cluster reads this {
      Cluster(routes, ingresses)
    }

    constructor ()
      ensures View() == Cluster(map[], map[])
    {
      routes, ingresses := map[], map[];
    }

    /** The apply loop: conflicts are collected, any other refusal ends the reconcile. */
    method ApplyHTTPRoutes(uid: string, rs: seq<NamedRoute>, replies: seq<Reply>)
      returns (desired: set<string>, conflicts: seq<string>, failed: bool)
      requires |replies| == |rs|
      modifies this`routes
      ensures ApplyState(View(), desired, conflicts, failed) == ApplyRoutes(old(View()), uid, rs, replies)
    {
      desired, conflicts, failed := {}, [], false;
      var i := 0;
      while i < |rs|
        invariant i <= |rs|
        invariant ApplyState(View(), desired, conflicts, failed)
               == ApplyRoutes(old(View()), uid, rs[..i], replies[..i]) && !failed
      {
        assert rs[..i + 1][..i] == rs[..i] && replies[..i + 1][..i] == replies[..i];
        if Accepted(routes, rs[i].name, uid, replies[i]) {
          routes := routes[rs[i].name := Object(Some(uid), rs[i].spec)];
          desired := desired + {rs[i].name};
        } else if replies[i] == AlreadyOwned {
          conflicts := conflicts + [rs[i].name];
        } else {
          failed := true;
          FailureStays(old(View()), uid, rs, replies, i + 1);
          return;
        }
        i := i + 1;
      }
      assert rs[..|rs|] == rs && replies[..|replies|] == replies;
    }

    method PruneHTTPRoutes(f: FreqUI, desired: set<string>, env: Env) returns (failed: bool)
      modifies this`routes
      ensures PruneState(View(), failed) == PruneStep(old(View()), f, desired, env)
    {
      if !env.available { return false; }
      if env.listFails { return true; }
      var i: nat := 0;
      while i < |env.listed|
        invariant i <= |env.listed|
        invariant PruneState(View(), false) == Prune(old(View()), f, desired, env.listed[..i], env.failAt)
      {
        assert env.listed[..i + 1][..i] == env.listed[..i];
        var l := env.listed[i];
        if Selected(f, l.route) && l.name !in desired && l.route.controller == Some(f.uid) {
          if env.failAt == i {
            PruneFailureStays(old(View()), f, desired, env.listed, env.failAt, i + 1);
            return true;
          }
          routes := routes - {l.name};
        }
        i := i + 1;
      }
      assert env.listed[..|env.listed|] == env.listed;
      failed := false;
    }

    method DeleteOwnedIngress(f: FreqUI, env: Env) returns (failed: bool)
      modifies this`ingresses
      ensures PruneState(View(), failed) == IngressStep(old(View()), f, env)
    {
      if env.ingressReadFails { return true; }
      if env.shownIngress.None? || env.shownIngress.value.controller != Some(f.uid) { return false; }
      if f.name !in ingresses {
        assert ingresses - {f.name} == ingresses;
        return false;                              // NotFound on delete is success
      }
      if env.ingressDeleteFails { return true; }
      ingresses := ingresses - {f.name};
      failed := false;
    }

    method ReconcileExposure(f: FreqUI, api: seq<APIRoute>, env: Env) returns (outcome: Outcome)
      requires EnvFits(f, api, env)
      modifies this
      ensures Step(View(), outcome) == Reconcile(old(View()), f, api, env)
    {
      match f.mode {
        case GatewayMode =>
          if !env.available { return NotInstalled; }
          var rs, skipped := BuildHTTPRoutes(f, api, env.valid);
          var desired, conflicts, applyFailed := ApplyHTTPRoutes(f.uid, rs, env.routeReplies);
          if applyFailed { return Err; }
          var pruneFailed := PruneHTTPRoutes(f, desired, env);
          if pruneFailed { return Err; }
          var deleteFailed := DeleteOwnedIngress(f, env);
          if deleteFailed { return Err; }
          outcome := if |conflicts| > 0 || |skipped| > 0 then Conflict(conflicts, skipped) else Exposed;
        case NoneMode =>
          var pruneFailed := PruneHTTPRoutes(f, {}, env);
          if pruneFailed { return Err; }
          var deleteFailed := DeleteOwnedIngress(f, env);
          outcome := if deleteFailed then Err else Exposed;
        case IngressMode =>
          if !Accepted(ingresses, f.name, f.uid, env.ingressReply) {
            return if env.ingressReply == AlreadyOwned then Conflict([f.name], []) else Err;
          }
          ingresses := ingresses[f.name := Object(Some(f.uid), IngressRules(f, api))];
          var pruneFailed := PruneHTTPRoutes(f, {}, env);
          outcome := if pruneFailed then Err else Exposed;
      }
    }
  }

  lemma {:induction false} FailureStays(c: Cluster, uid: string, rs: seq<NamedRoute>, replies: seq<Reply>, n: nat)
    requires |replies| == |rs| && n <= |rs| && ApplyRoutes(c, uid, rs[..n], replies[..n]).failed
    ensures ApplyRoutes(c, uid, rs, replies) == ApplyRoutes(c, uid, rs[..n], replies[..n])
  {
    var k := |rs|;
    if n == k {
      assert rs[..n] == rs && replies[..n] == replies;
    } else {
      assert rs[..k - 1][..n] == rs[..n] && replies[..k - 1][..n] == replies[..n];
      FailureStays(c, uid, rs[..k - 1], replies[..k - 1], n);
    }
  }

  lemma {:induction false} PruneFailureStays(
    c: Cluster, f: FreqUI, desired: set<string>, listed: seq<Listed>, failAt: nat, n: nat)
    requires n <= |listed| && Prune(c, f, desired, listed[..n], failAt).failed
    ensures Prune(c, f, desired, listed, failAt) == Prune(c, f, desired, listed[..n], failAt)
  {
    var k := |listed|;
    if n == k {
      assert listed[..n] == listed;
    } else {
      assert listed[..k - 1][..n] == listed[..n];
      PruneFailureStays(c, f, desired, listed[..k - 1], failAt, n);
    }
  }

  // ---------- ExposureReady from the routes' own status ----------

  /** What one Gateway reports about a route: its Accepted and ResolvedRefs conditions, if present. */
  datatype Verdict = Verdict(ok: bool, reason: string)
  datatype Parent = Parent(accepted: Option<Verdict>, resolved: Option<Verdict>)
  datatype AppliedRoute = AppliedRoute(name: string, parents: seq<Parent>)

  datatype Failure = Pending(name: string) | Rejected(name: string, reason: string)

  predicate Serves(p: Parent) {
    p.accepted.Some? && p.accepted.value.ok && p.resolved.Some? && p.resolved.value.ok
  }

  /** Some Gateway serves the route. */
  predicate Served(r: AppliedRoute) {
    exists p :: p in r.parents && Serves(p)
  }

  function Complaint(p: Parent): string {
    if p.accepted.Some? && !p.accepted.value.ok then p.accepted.value.reason
    else if p.resolved.Some? && !p.resolved.value.ok then p.resolved.value.reason
    else ""
  }

  function FirstComplaint(ps: seq<Parent>): string {
    if ps == [] then ""
    else if FirstComplaint(ps[..|ps| - 1]) != "" then FirstComplaint(ps[..|ps| - 1])
    else Complaint(ps[|ps| - 1])
  }

  function FailureOf(r: AppliedRoute): Failure {
    if r.parents == [] then Pending(r.name)
    else Rejected(r.name, if FirstComplaint(r.parents) == "" then "Unknown" else FirstComplaint(r.parents))
  }

  /** The routes no Gateway serves, each once per occurrence and in order. */
  function Failures(rs: seq<AppliedRoute>): seq<Failure> {
    if rs == [] then []
    else (Failures(rs[..|rs| - 1])
          + if Served(rs[|rs| - 1]) then [] else [FailureOf(rs[|rs| - 1])])
  }

  lemma {:induction false} FailuresExactly(rs: seq<AppliedRoute>, x: Failure)
    ensures x in Failures(rs) <==> exists r :: r in rs && !Served(r) && x == FailureOf(r)
  {
    if rs != [] {
      FailuresExactly(rs[..|rs| - 1], x);
      assert rs == rs[..|rs| - 1] + [rs[|rs| - 1]];
    }
  }

  /** The Gateway refuses the route with this reason: not accepting it comes before not resolving its references. */
  predicate Refuses(p: Parent, reason: string) {
    || (p.accepted.Some? && !p.accepted.value.ok && reason == p.accepted.value.reason)
    || (!(p.accepted.Some? && !p.accepted.value.ok)
        && p.resolved.Some? && !p.resolved.value.ok && reason == p.resolved.value.reason)
  }

  /** What a failing route is reported with: that no Gateway has looked at it, or the reason of the first Gateway that
      refuses it with one, or "Unknown". */
  lemma {:induction false} FailureSaysWhy(r: AppliedRoute)
    requires !Served(r)
    ensures r.parents == [] <==> FailureOf(r) == Pending(r.name)
    ensures r.parents != [] ==>
      var reason := FailureOf(r).reason;
      && FailureOf(r) == Rejected(r.name, reason)
      && (|| (exists i :: 0 <= i < |r.parents| && reason != "" && Refuses(r.parents[i], reason)
                          && forall j, s :: 0 <= j < i && Refuses(r.parents[j], s) ==> s == "")
          || (reason == "Unknown" && forall p, s :: p in r.parents && Refuses(p, s) ==> s == ""))
  {
    FirstComplaintIsFirst(r.parents);
  }

  lemma {:induction false} FirstComplaintIsFirst(ps: seq<Parent>)
    ensures
      var reason := FirstComplaint(ps);
      if reason == "" then forall p, s :: p in ps && Refuses(p, s) ==> s == ""
      else exists i :: 0 <= i < |ps| && Refuses(ps[i], reason)
                       && forall j, s :: 0 <= j < i && Refuses(ps[j], s) ==> s == ""
  {
    if ps != [] {
      var n := |ps| - 1;
      FirstComplaintIsFirst(ps[..n]);
      assert ps == ps[..n] + [ps[n]];
      if FirstComplaint(ps[..n]) == "" && Complaint(ps[n]) != "" { assert Refuses(ps[n], Complaint(ps[n])); }
    }
  }

  lemma NoFailureMeansAllServed(rs: seq<AppliedRoute>)
    ensures Failures(rs) == [] <==> forall r :: r in rs ==> Served(r)
    ensures (exists x :: x in Failures(rs) && x.Pending?) <==> exists r :: r in rs && r.parents == []
  {
    if Failures(rs) != [] { FailuresExactly(rs, Failures(rs)[0]); }
    forall r | r in rs && !Served(r) ensures FailureOf(r) in Failures(rs) {
      FailuresExactly(rs, FailureOf(r));
    }
    forall x | x in Failures(rs) ensures exists r :: r in rs && !Served(r) && x == FailureOf(r) {
      FailuresExactly(rs, x);
    }
    if r :| r in rs && r.parents == [] {
      assert !Served(r) && FailureOf(r).Pending?;
    }
  }

  /** deriveGatewayExposureCondition: True exactly when every route is served by some Gateway that both accepted it and
      resolved its references; otherwise RoutePending exactly when some route has not been looked at by any Gateway. */
  method DeriveGatewayExposureCondition(routes: seq<AppliedRoute>)
    returns (status: ConditionStatus, reason: Reason, failures: seq<Failure>)
    ensures failures == Failures(routes)
    ensures status == True || status == False
    ensures status == True <==> forall r :: r in routes ==> Served(r)
    ensures status == True ==> reason == AsExpected
    ensures status == False ==>
              reason == if exists r :: r in routes && r.parents == [] then RoutePending else RouteNotAccepted
  {
    failures := [];
    var i := 0;
    while i < |routes|
      invariant i <= |routes|
      invariant failures == Failures(routes[..i])
    {
      assert routes[..i + 1][..i] == routes[..i];
      var route := routes[i];
      if |route.parents| == 0 {
        failures := failures + [Pending(route.name)];
      } else {
        var accepted, firstReason := ScanParents(route);
        if !accepted {
          failures := failures + [Rejected(route.name, if firstReason == "" then "Unknown" else firstReason)];
        }
      }
      i := i + 1;
    }
    assert routes[..|routes|] == routes;
    NoFailureMeansAllServed(routes);
    if |failures| == 0 { return True, AsExpected, failures; }
    var j := 0;
    while j < |failures|
      invariant j <= |failures|
      invariant forall k :: 0 <= k < j ==> !failures[k].Pending?
    {
      if failures[j].Pending? {
        assert failures[j] in failures;
        return False, RoutePending, failures;
      }
      j := j + 1;
    }
    return False, RouteNotAccepted, failures;
  }

  method ScanParents(route: AppliedRoute) returns (accepted: bool, firstReason: string)
    ensures accepted == Served(route)
    ensures !accepted ==> firstReason == FirstComplaint(route.parents)
  {
    accepted, firstReason := false, "";
    var i := 0;
    while i < |route.parents|
      invariant i <= |route.parents|
      invariant forall k :: 0 <= k < i ==> !Serves(route.parents[k])
      invariant firstReason == FirstComplaint(route.parents[..i])
    {
      assert route.parents[..i + 1][..i] == route.parents[..i];
      var parent := route.parents[i];
      if Serves(parent) {
        assert parent in route.parents;
        return true, firstReason;
      }
      if firstReason == "" { firstReason := Complaint(parent); }
      i := i + 1;
    }
    assert route.parents[..|route.parents|] == route.parents;
  }
}
