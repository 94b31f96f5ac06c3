/** The CORS origins a bot's API allows: collected from the FreqUIs that reference it, put in canonical order, and added
    to the user's own list. The order in which the API server happens to list the FreqUIs must not show. */
module CorsHosts {
  import opened Wrappers

  datatype FreqUI = FreqUI(name: string, namespace: string, host: string, tradeBotRefs: seq<string>)

  /** url.Parse: scheme and host of an absolute URL, if the text is one. */
  type Parser = string -> Option<(string, string)>

  // ---------- Strings in Go's order ----------

  /** a comes before or at b, compared character by character. */
  predicate AtMost(a: string, b: string) {
    a == "" || (b != "" && (a[0] < b[0] || (a[0] == b[0] && AtMost(a[1..], b[1..]))))
  }

  lemma {:induction false} AtMostIsTotal(a: string, b: string)
    ensures AtMost(a, b) || AtMost(b, a)
  {
    if a != "" && b != "" { AtMostIsTotal(a[1..], b[1..]); }
  }

  lemma {:induction false} AtMostIsAntisymmetric(a: string, b: string)
    requires AtMost(a, b) && AtMost(b, a)
    ensures a == b
  {
    if a != "" {
      AtMostIsAntisymmetric(a[1..], b[1..]);
      assert a == [a[0]] + a[1..] && b == [b[0]] + b[1..];
    }
  }

  lemma {:induction false} AtMostIsTransitive(a: string, b: string, c: string)
    requires AtMost(a, b) && AtMost(b, c)
    ensures AtMost(a, c)
  {
    if a != "" && a[0] == b[0] && b[0] == c[0] { AtMostIsTransitive(a[1..], b[1..], c[1..]); }
  }

  predicate Sorted(s: seq<string>) {
    forall i, j :: 0 <= i < j < |s| ==> AtMost(s[i], s[j])
  }

  predicate Distinct(s: seq<string>) {
    forall i, j :: 0 <= i < j < |s| ==> s[i] != s[j]
  }

  function Insert(s: seq<string>, x: string): seq<string> {
    if s == [] then [x] else if AtMost(x, s[0]) then [x] + s else [s[0]] + Insert(s[1..], x)
  }

  /** sort.Strings. */
  function Sort(s: seq<string>): seq<string> {
    if s == [] then [] else Insert(Sort(s[1..]), s[0])
  }

  lemma {:induction false} InsertIsSorted(s: seq<string>, x: string)
    requires Sorted(s)
    ensures Sorted(Insert(s, x)) && multiset(Insert(s, x)) == multiset(s) + multiset{x}
  {
    if s == [] {
    } else if AtMost(x, s[0]) {
      forall j | 0 <= j < |s| ensures AtMost(x, s[j]) {
        if j > 0 { AtMostIsTransitive(x, s[0], s[j]); }
      }
    } else {
      AtMostIsTotal(x, s[0]);
      InsertIsSorted(s[1..], x);
      var t := Insert(s[1..], x);
      assert s == [s[0]] + s[1..];
      forall j | 0 <= j < |t| ensures AtMost(s[0], t[j]) {
        assert t[j] in multiset(t);
        if t[j] != x {
          assert t[j] in multiset(s[1..]);
          assert t[j] in s[1..];
        }
      }
    }
  }

  lemma {:induction false} SortIsSorted(s: seq<string>)
    ensures Sorted(Sort(s)) && multiset(Sort(s)) == multiset(s)
  {
    if s != [] {
      SortIsSorted(s[1..]);
      InsertIsSorted(Sort(s[1..]), s[0]);
      assert s == [s[0]] + s[1..];
    }
  }

  lemma DistinctByCount(s: seq<string>)
    ensures Distinct(s) <==> forall x :: multiset(s)[x] <= 1
  {
    if Distinct(s) {
      forall x ensures multiset(s)[x] <= 1 { DistinctCount(s, x); }
    } else {
      var i, j :| 0 <= i < j < |s| && s[i] == s[j];
      assert s == s[..i] + [s[i]] + s[i + 1..j] + [s[j]] + s[j + 1..];
      assert multiset(s)[s[i]] >= 2;
    }
  }

  lemma {:induction false} DistinctCount(s: seq<string>, x: string)
    requires Distinct(s)
    ensures multiset(s)[x] <= 1
  {
    if s != [] {
      DistinctCount(s[1..], x);
      assert s == [s[0]] + s[1..];
      if x == s[0] {
        assert x !in s[1..];
        assert x !in multiset(s[1..]);
      }
    }
  }

  lemma SortKeeps(s: seq<string>)
    ensures Sorted(Sort(s)) && (Distinct(s) ==> Distinct(Sort(s))) && forall x :: x in Sort(s) <==> x in s
  {
    SortIsSorted(s);
    DistinctByCount(s);
    DistinctByCount(Sort(s));
    forall x ensures x in Sort(s) <==> x in s {
      assert x in s <==> x in multiset(s);
      assert x in Sort(s) <==> x in multiset(Sort(s));
    }
  }

  lemma HasMember(s: seq<string>)
    ensures s == [] || exists x :: x in s
  {
    if s != [] { assert s[0] in s; }
  }

  /** A set of strings has only one sorted duplicate-free listing. */
  lemma {:induction false} CanonicalListing(a: seq<string>, b: seq<string>)
    requires Sorted(a) && Distinct(a) && Sorted(b) && Distinct(b)
    requires forall x :: x in a <==> x in b
    ensures a == b
  {
    if a == [] {
      HasMember(b);
    } else {
      assert a[0] in a && a[0] in b;
      assert b[0] in b && b[0] in a;
      var i :| 0 <= i < |a| && a[i] == b[0];
      var j :| 0 <= j < |b| && b[j] == a[0];
      if i > 0 && j > 0 { AtMostIsAntisymmetric(a[0], b[0]); }
      assert a[0] == b[0];
      forall x ensures x in a[1..] <==> x in b[1..] {
        assert x in a <==> x == a[0] || x in a[1..];
        assert x in b <==> x == b[0] || x in b[1..];
      }
      CanonicalListing(a[1..], b[1..]);
      assert a == [a[0]] + a[1..] && b == [b[0]] + b[1..];
    }
  }

  // ---------- Origins ----------

  predicate HasPrefix(s: string, p: string) {
    |p| <= |s| && s[..|p|] == p
  }

  function InferHostScheme(parse: Parser, host: string, defaultScheme: string): (string, string) {
    if HasPrefix(host, "http://") || HasPrefix(host, "https://") then
      var u := parse(host);
      if u.Some? && u.value.1 != "" then u.value else (defaultScheme, host)
    else if HasPrefix(host, "localhost") then ("http", host)
    else (defaultScheme, host)
  }

  function Origin(parse: Parser, host: string): string {
    var u := InferHostScheme(parse, host, "https");
    u.0 + "://" + u.1
  }

  function Origins(parse: Parser, f: FreqUI): seq<string> {
    if f.host != "" then [Origin(parse, f.host)]
    else ["http://" + f.name + "." + f.namespace + ".svc.cluster.local", "http://localhost:8080"]
  }

  /** The origins of the FreqUIs that reference the bot, as a set: what the list has to contain. */
  ghost predicate Wanted(parse: Parser, bot: string, fs: seq<FreqUI>, h: string) {
    exists f :: f in fs && bot in f.tradeBotRefs && h in Origins(parse, f)
  }

  function AddNew(hosts: seq<string>, more: seq<string>): seq<string> {
    if more == [] then hosts
    else
      var before, x := AddNew(hosts, more[..|more| - 1]), more[|more| - 1];
      if x in before then before else before + [x]
  }

  /** Adding keeps what is there, in place, and appends exactly what was missing, once each. */
  lemma {:induction false} AddNewExactly(hosts: seq<string>, more: seq<string>)
    ensures var r := AddNew(hosts, more);
            && hosts <= r
            && (forall x :: x in r <==> x in hosts || x in more)
            && Distinct(r[|hosts|..]) && (forall x :: x in r[|hosts|..] ==> x !in hosts)
            && (Distinct(hosts) ==> Distinct(r))
  {
    if more != [] {
      var n := |more| - 1;
      AddNewExactly(hosts, more[..n]);
      var before, r := AddNew(hosts, more[..n]), AddNew(hosts, more);
      assert more == more[..n] + [more[n]];
      if more[n] !in before {
        assert r[|hosts|..] == before[|hosts|..] + [more[n]];
        assert forall x :: x in before[|hosts|..] ==> x in before;
      }
    }
  }

  function Gather(parse: Parser, bot: string, fs: seq<FreqUI>): seq<string> {
    if fs == [] then []
    else
      var before, f := Gather(parse, bot, fs[..|fs| - 1]), fs[|fs| - 1];
      if bot in f.tradeBotRefs then AddNew(before, Origins(parse, f)) else before
  }

  lemma {:induction false} GatherExactly(parse: Parser, bot: string, fs: seq<FreqUI>)
    ensures Distinct(Gather(parse, bot, fs))
    ensures forall h :: h in Gather(parse, bot, fs) <==> Wanted(parse, bot, fs, h)
  {
    if fs != [] {
      var n := |fs| - 1;
      var before := Gather(parse, bot, fs[..n]);
      GatherExactly(parse, bot, fs[..n]);
      AddNewExactly(before, Origins(parse, fs[n]));
      forall h ensures Wanted(parse, bot, fs, h)
                  <==> Wanted(parse, bot, fs[..n], h) || (bot in fs[n].tradeBotRefs && h in Origins(parse, fs[n]))
      {
        assert fs == fs[..n] + [fs[n]];
      }
    }
  }

  function Collect(parse: Parser, bot: string, fs: seq<FreqUI>): seq<string> {
    Sort(Gather(parse, bot, fs))
  }

  lemma CollectExactly(parse: Parser, bot: string, fs: seq<FreqUI>)
    ensures Sorted(Collect(parse, bot, fs)) && Distinct(Collect(parse, bot, fs))
    ensures forall h :: h in Collect(parse, bot, fs) <==> Wanted(parse, bot, fs, h)
  {
    GatherExactly(parse, bot, fs);
    SortKeeps(Gather(parse, bot, fs));
  }

  /** Any two listings of the same FreqUIs, in any order and with any repetitions, give the same list of hosts. */
  lemma ListingOrderDoesNotShow(parse: Parser, bot: string, fs: seq<FreqUI>, gs: seq<FreqUI>)
    requires forall f :: f in fs <==> f in gs
    ensures Collect(parse, bot, fs) == Collect(parse, bot, gs)
  {
    CollectExactly(parse, bot, fs);
    CollectExactly(parse, bot, gs);
    forall h ensures Wanted(parse, bot, fs, h) <==> Wanted(parse, bot, gs, h) {}
    CanonicalListing(Collect(parse, bot, fs), Collect(parse, bot, gs));
  }

  /** validateCORSHosts never finds anything to complain about in a collected list, as long as URL parsing keeps the
      scheme it was shown. */
  lemma CollectedHostsAreValid(parse: Parser, bot: string, fs: seq<FreqUI>, h: string)
    requires forall s :: parse(s).Some? ==> parse(s).value.0 in {"http", "https"}
    requires h in Collect(parse, bot, fs)
    ensures HasPrefix(h, "http://") || HasPrefix(h, "https://")
  {
    CollectExactly(parse, bot, fs);
    var f :| f in fs && bot in f.tradeBotRefs && h in Origins(parse, f);
    if f.host != "" {
      var u := InferHostScheme(parse, f.host, "https");
      assert u.0 in {"http", "https"};
      assert "http" + "://" == "http://" && "https" + "://" == "https://";
      assert h[..|u.0 + "://"|] == u.0 + "://";
    } else {
      assert h[..7] == "http://";
    }
  }

  /** The origins a FreqUI is served from: without a host of its own its in-cluster address and the local port;
      otherwise its host, with the scheme it comes with if it is a whole URL, http for localhost, and https for anything
      else. */
  predicate ServedFrom(parse: Parser, f: FreqUI, h: string) {
    if f.host == "" then h in {"http://" + f.name + "." + f.namespace + ".svc.cluster.local", "http://localhost:8080"}
    else if HasPrefix(f.host, "http://") || HasPrefix(f.host, "https://") then
      match parse(f.host)
      case Some((scheme, host)) => h == if host != "" then scheme + "://" + host else "https://" + f.host
      case None => h == "https://" + f.host
    else h == (if HasPrefix(f.host, "localhost") then "http://" else "https://") + f.host
  }

  /** Collected are exactly the origins of the FreqUIs that reference the bot. */
  lemma {:induction false} HostsCollectedExactly(parse: Parser, bot: string, fs: seq<FreqUI>, h: string)
    ensures h in Collect(parse, bot, fs) <==> exists f :: f in fs && bot in f.tradeBotRefs && ServedFrom(parse, f, h)
  {
    CollectExactly(parse, bot, fs);
    forall f: FreqUI ensures h in Origins(parse, f) <==> ServedFrom(parse, f, h) {
      assert "http" + "://" == "http://" && "https" + "://" == "https://";
    }
  }

  // ---------- As the operator runs it ----------

  /** collectCORSHostsForTradeBot: a list and a set grown together, then sorted. */
  method CollectCORSHosts(parse: Parser, bot: string, fs: seq<FreqUI>) returns (hosts: seq<string>)
    ensures hosts == Collect(parse, bot, fs)
    ensures Sorted(hosts) && Distinct(hosts)
    ensures forall h :: h in hosts <==> Wanted(parse, bot, fs, h)
  {
    hosts := [];
    var seen: set<string> := {};
    var i := 0;
    while i < |fs|
      invariant i <= |fs|
      invariant hosts == Gather(parse, bot, fs[..i])
      invariant forall x :: x in seen <==> x in hosts
    {
      assert fs[..i + 1][..i] == fs[..i];
      var f := fs[i];
      var j := 0;
      while j < |f.tradeBotRefs|
        invariant j <= |f.tradeBotRefs|
        invariant forall k :: 0 <= k < j ==> f.tradeBotRefs[k] != bot
        invariant hosts == Gather(parse, bot, fs[..i])
        invariant forall x :: x in seen <==> x in hosts
      {
        if f.tradeBotRefs[j] == bot {
          hosts, seen := AddOrigins(hosts, seen, Origins(parse, f));
          break;
        }
        j := j + 1;
      }
      assert j < |f.tradeBotRefs| ==> f.tradeBotRefs[j] in f.tradeBotRefs;
      i := i + 1;
    }
    assert fs[..|fs|] == fs;
    hosts := Sort(hosts);
    CollectExactly(parse, bot, fs);
  }

  method AddOrigins(hosts: seq<string>, seen: set<string>, candidates: seq<string>)
    returns (hosts': seq<string>, seen': set<string>)
    requires forall x :: x in seen <==> x in hosts
    ensures hosts' == AddNew(hosts, candidates)
    ensures forall x :: x in seen' <==> x in hosts'
  {
    hosts', seen' := hosts, seen;
    var i := 0;
    while i < |candidates|
      invariant i <= |candidates|
      invariant hosts' == AddNew(hosts, candidates[..i])
      invariant forall x :: x in seen' <==> x in hosts'
    {
      assert candidates[..i + 1][..i] == candidates[..i];
      if candidates[i] !in seen' {
        hosts' := hosts' + [candidates[i]];
        seen' := seen' + {candidates[i]};
      }
      i := i + 1;
    }
    assert candidates[..|candidates|] == candidates;
  }

  /** The CORS part of buildAPIServerConfig: the user's list as it is, then exactly the missing extras, once each. */
  method MergeCORSOrigins(user: seq<string>, extras: seq<string>) returns (origins: seq<string>)
    ensures origins == AddNew(user, extras)
    ensures user <= origins
    ensures forall x :: x in origins <==> x in user || x in extras
    ensures Distinct(origins[|user|..]) && forall x :: x in origins[|user|..] ==> x !in user
  {
    origins := user;
    if |extras| > 0 {
      var seen := set x | x in user;
      var i := 0;
      while i < |extras|
        invariant i <= |extras|
        invariant origins == AddNew(user, extras[..i])
        invariant forall x :: x in seen <==> x in origins
      {
        assert extras[..i + 1][..i] == extras[..i];
        if extras[i] !in seen {
          origins := origins + [extras[i]];
          seen := seen + {extras[i]};
        }
        i := i + 1;
      }
      assert extras[..|extras|] == extras;
    }
    AddNewExactly(user, extras);
  }
}
