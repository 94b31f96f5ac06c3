/** spec.state, the desired run state, under every write a TradeBot can receive: v1beta1 clients, v1alpha1 clients
    through admission webhook and conversion, the operator's status patches and its finalizer writes. */
module DesiredState {
  import opened Wrappers
  import opened GoJson
  import opened TradeBotConversion

  const BOT_FINALIZER := "freqtrade.io/finalizer"

  // ---------- The v1alpha1 admission webhook ----------

  datatype Lookup = Found | NotFound | Failed

  /** What the webhook's own reads return; the stored object is read uncached, so it is current unless the read
      fails. */
  datatype Reads = Reads(strategy: Lookup, config: Lookup, storedFails: bool)

  datatype Rules = Rules(shellMetacharacter: string -> bool, ownedFlags: set<string>)

  const MIN_INTERVAL: real := 10_000_000_000.0     // nanoseconds

  predicate TooFast(introspection: Option<Value>) {
    introspection.Some? && introspection.value.StructOf? && INTERVAL < |introspection.value.values| &&
    var i := introspection.value.values[INTERVAL];
    i.NumberOf? && i.number != 0.0 && i.number < MIN_INTERVAL
  }

  predicate Guarded(seen: Reads, stored: Option<Beta>) {
    !seen.storedFails && stored.Some? && stored.value.spec.state == "Stopped"
  }

  predicate GoodArgument(rules: Rules, arg: string) {
    !rules.shellMetacharacter(arg) && arg !in rules.ownedFlags
  }

  /** What an admitted object satisfies, check by check. */
  predicate Valid(rules: Rules, a: Alpha, seen: Reads, stored: Option<Beta>) {
    && seen.strategy == Found && seen.config == Found
    && (forall arg :: arg in a.spec.freqtradeArguments ==> GoodArgument(rules, arg))
    && !TooFast(a.spec.introspection)
    && !Guarded(seen, stored)
  }

  datatype Denial = StrategyMissing | ConfigMissing | BadArgument(arg: string) | IntervalTooShort | StateWouldBeReset

  /** validate: the checks in the order they are made, the first that fails decides. */
  method Validate(rules: Rules, a: Alpha, seen: Reads, stored: Option<Beta>) returns (denial: Option<Denial>)
    ensures denial == None <==> Valid(rules, a, seen, stored)
    ensures denial == None <==>
              && seen.strategy == Found && seen.config == Found
              && (forall arg :: arg in a.spec.freqtradeArguments ==>
                    !rules.shellMetacharacter(arg) && arg !in rules.ownedFlags)
              && !TooFast(a.spec.introspection)
              && (seen.storedFails || stored.None? || stored.value.spec.state != "Stopped")
    ensures denial == Some(StateWouldBeReset) ==> Valid(rules, a, seen.(storedFails := true), stored)
    ensures denial == Some(IntervalTooShort) ==> TooFast(a.spec.introspection)
    ensures denial.Some? && denial.value.BadArgument? ==>
              denial.value.arg in a.spec.freqtradeArguments && !GoodArgument(rules, denial.value.arg)
    ensures denial == Some(ConfigMissing) ==> seen.strategy == Found && seen.config != Found
    ensures denial == Some(StrategyMissing) ==> seen.strategy != Found
  {
    if seen.strategy != Found { return Some(StrategyMissing); }
    if seen.config != Found { return Some(ConfigMissing); }
    var i := 0;
    while i < |a.spec.freqtradeArguments|
      invariant i <= |a.spec.freqtradeArguments|
      invariant forall k :: 0 <= k < i ==> GoodArgument(rules, a.spec.freqtradeArguments[k])
    {
      var arg := a.spec.freqtradeArguments[i];
      if rules.shellMetacharacter(arg) || arg in rules.ownedFlags {
        assert arg in a.spec.freqtradeArguments && !GoodArgument(rules, arg);
        return Some(BadArgument(arg));
      }
      i := i + 1;
    }
    if TooFast(a.spec.introspection) { return Some(IntervalTooShort); }
    if !seen.storedFails && stored.Some? && stored.value.spec.state == "Stopped" { return Some(StateWouldBeReset); }
    denial := None;
  }

  // ---------- The stored object ----------

  /** Every version the API server ever stored, the last one current; None is an absent object. */
  type Store = s: seq<Option<Beta>> | s != [] witness [None]

  datatype Event =
    | BetaWrite(b: Beta)                        // create or update by a v1beta1 client
    | AlphaWrite(a: Alpha, seen: Reads)        // create or update by a v1alpha1 client
    | AlphaStatusWrite(a: Alpha)                // a status update typed as v1alpha1: no webhook runs
    | StatusPatch(status: Status)               // the operator, through v1beta1
    | FinalizerWrite(read: nat, add: bool)      // the operator, from a v1beta1 copy that may be out of date
    | Delete

  datatype Setting = Setting(sh: Shape, rules: Rules)

  function Current(s: Store): Option<Beta> {
    s[|s| - 1]
  }

  /** The object being updated keeps its deletion mark, its status, and, once marked, ends with its last finalizer. */
  ghost function Put(s: Store, meta: Meta, spec: BetaSpec): Store {
    var was := Current(s);
    var m := meta.(deleting := was.Some? && was.value.meta.deleting);
    if m.deleting && m.finalizers == {} then s + [None]
    else s + [Some(Beta(m, spec.(state := Effective(spec.state)), if was.Some? then was.value.status else NO_STATUS))]
  }

  /** Whether a v1alpha1 write gets past the webhook: an update of an object being deleted is not looked at. */
  predicate Admitted(rules: Rules, a: Alpha, seen: Reads, stored: Option<Beta>) {
    (stored.Some? && stored.value.meta.deleting) || Valid(rules, a, seen, stored)
  }

  ghost predicate Accepted(env: Setting, s: Store, a: Alpha, seen: Reads) {
    TypedAlpha(env.sh, a) && Admitted(env.rules, a, seen, Current(s)) && TradeMode(a)
  }

  ghost function Next(env: Setting, s: Store, e: Event): Store {
    match e
    case BetaWrite(b) => if b.spec.state in {"", "Running", "Stopped"} then Put(s, b.meta, b.spec) else s
    case AlphaWrite(a, seen) =>
      if Accepted(env, s, a, seen) then Put(s, a.meta, ToBeta(env.sh, a, EMPTY_BETA).spec) else s
    case AlphaStatusWrite(a) =>
      if Current(s).Some? && TypedAlpha(env.sh, a) && TradeMode(a) then
        var b := ToBeta(env.sh, a, EMPTY_BETA);
        var o := Current(s).value;
        s + [Some(o.(spec := o.spec.(state := Effective(b.spec.state)), status := b.status))]
      else s
    case StatusPatch(status) => if Current(s).Some? then s + [Some(Current(s).value.(status := status))] else s
    case FinalizerWrite(read, add) =>
      if read == |s| - 1 && Current(s).Some? then           // an older copy is refused with a conflict
        var o := Current(s).value;
        var finalizers := if add then o.meta.finalizers + {BOT_FINALIZER} else o.meta.finalizers - {BOT_FINALIZER};
        Put(s, o.meta.(finalizers := finalizers), o.spec)
      else s
    case Delete =>
      if Current(s).None? then s
      else if Current(s).value.meta.finalizers == {} then s + [None]
      else s + [Some(Current(s).value.(meta := Current(s).value.meta.(deleting := true)))]
  }

  ghost function Run(env: Setting, events: seq<Event>): Store {
    if events == [] then [None] else Next(env, Run(env, events[..|events| - 1]), events[|events| - 1])
  }

  // ---------- Who decides the state ----------

  /** The effective state last asked for through v1beta1 since the object came to exist; Running if nobody ever asked.
      No other kind of event has a say. */
  ghost function Asked(env: Setting, events: seq<Event>): string {
    if events == [] then "Running"
    else
      var before, e := events[..|events| - 1], events[|events| - 1];
      if e.BetaWrite? && e.b.spec.state in {"", "Running", "Stopped"} then Effective(e.b.spec.state)
      else if Current(Run(env, before)).None? then "Running"
      else Asked(env, before)
  }

  /** The one thing that must not happen: a write the webhook could not judge, or never saw. */
  predicate Judged(e: Event) {
    !e.AlphaStatusWrite? && (e.AlphaWrite? ==> !e.seen.storedFails)
  }

  lemma AlphaStateIsRunning(sh: Shape, a: Alpha)
    requires TypedAlpha(sh, a)
    ensures Effective(ToBeta(sh, a, EMPTY_BETA).spec.state) == "Running"
  {}

  lemma {:induction false} StateIsInEnum(env: Setting, events: seq<Event>)
    ensures var s := Run(env, events);
            Current(s).Some? ==> Current(s).value.spec.state in {"", "Running", "Stopped"}
  {
    if events != [] {
      StateIsInEnum(env, events[..|events| - 1]);
      var e := events[|events| - 1];
      if e.AlphaWrite? && TypedAlpha(env.sh, e.a) { AlphaStateIsRunning(env.sh, e.a); }
    }
  }

  /** The main result: as long as the object is not being deleted, its effective state is what v1beta1 clients last
      asked for, through any interleaving of v1alpha1 writes, status patches, finalizer writes, deletions and
      re-creations in which the webhook could read the stored object. */
  lemma {:induction false} OnlyBetaClientsDecide(env: Setting, events: seq<Event>)
    requires forall e :: e in events ==> Judged(e)
    ensures var o := Current(Run(env, events));
            o.Some? && !o.value.meta.deleting ==> Effective(o.value.spec.state) == Asked(env, events)
  {
    if events != [] {
      var before, e := events[..|events| - 1], events[|events| - 1];
      OnlyBetaClientsDecide(env, before);
      StateIsInEnum(env, before);
      assert e in events;
      if e.AlphaWrite? && TypedAlpha(env.sh, e.a) { AlphaStateIsRunning(env.sh, e.a); }
    }
  }

  /** Exactly when one v1alpha1 write changes the effective state of an existing object: it is otherwise acceptable, the
      bot was Stopped, and the guard did not run (deletion exempts the update, or the stored object could not be read).
      An object being deleted that is written without finalizers is gone; nothing else makes one go. */
  lemma {:induction false} AlphaWriteResetsExactly(env: Setting, events: seq<Event>, a: Alpha, seen: Reads)
    requires TypedAlpha(env.sh, a) && Current(Run(env, events)).Some?
    ensures var s := Run(env, events);
            var o, o' := Current(s).value, Current(Next(env, s, AlphaWrite(a, seen)));
            && (o'.None? <==> o.meta.deleting && TradeMode(a) && a.meta.finalizers == {})
            && (o'.Some? ==>
                  (Effective(o'.value.spec.state) != Effective(o.spec.state)
                   <==> TradeMode(a) && o.spec.state == "Stopped"
                        && (o.meta.deleting || (seen.storedFails && Valid(env.rules, a, seen, Some(o))))))
  {
    StateIsInEnum(env, events);
    AlphaStateIsRunning(env.sh, a);
  }

  /** The object is being deleted and this write takes its last finalizer. */
  predicate Releases(was: Option<Beta>, meta: Meta) {
    was.Some? && was.value.meta.deleting && meta.finalizers == {}
  }

  /** What a client's write leaves: for v1beta1, in any state of the enum, what it sent; for v1alpha1, if it gets past
      webhook and conversion, what it sent under the names v1beta1 has for it, asking for Running. Deletion mark and
      status stay as stored, and the object goes when it was only waiting for its last finalizer. */
  lemma {:induction false} ClientWritesExactly(env: Setting, s: Store, b: Beta, a: Alpha, seen: Reads)
    requires TypedAlpha(env.sh, a)
    ensures
      var was := Current(s);
      var deleting, status := was.Some? && was.value.meta.deleting, if was.Some? then was.value.status else NO_STATUS;
      var o, p := Current(Next(env, s, BetaWrite(b))), Current(Next(env, s, AlphaWrite(a, seen)));
      && (b.spec.state !in {"", "Running", "Stopped"} ==> o == was)
      && (b.spec.state in {"", "Running", "Stopped"} ==>
            && (o.None? <==> Releases(was, b.meta))
            && (o.Some? ==> o.value.meta == b.meta.(deleting := deleting) && o.value.status == status
                            && o.value.spec == b.spec.(state := o.value.spec.state)
                            && o.value.spec.state == if b.spec.state == "Stopped" then "Stopped" else "Running"))
      && (!(TradeMode(a) && (deleting || Valid(env.rules, a, seen, was))) ==> p == was)
      && (TradeMode(a) && (deleting || Valid(env.rules, a, seen, was)) ==>
            && (p.None? <==> Releases(was, a.meta))
            && (p.Some? ==> p.value.meta == a.meta.(deleting := deleting) && p.value.status == status
                            && p.value.spec.configRef == a.spec.config && p.value.spec.strategyRef == a.spec.strategy
                            && p.value.spec.updateStrategy == a.spec.updateStrategy
                            && p.value.spec.state == "Running"))
  {}

  /** The operator's own writes and a deletion never touch the spec: a status patch replaces the status, a finalizer
      write from the current version adds or takes the operator's finalizer and nothing else, one from an older version
      does nothing, and a deletion marks the object or, without finalizers, removes it. */
  lemma {:induction false} OperatorWritesExactly(env: Setting, s: Store, status: Status, read: nat, add: bool)
    requires Current(s).Some? && Current(s).value.spec.state in {"", "Running", "Stopped"}
    ensures
      var was := Current(s).value;
      var patched := Current(Next(env, s, StatusPatch(status)));
      var written, deleted := Current(Next(env, s, FinalizerWrite(read, add))), Current(Next(env, s, Delete));
      var left := was.meta.finalizers - {BOT_FINALIZER} + if add then {BOT_FINALIZER} else {};
      && patched == Some(was.(status := status))
      && (read != |s| - 1 ==> written == Some(was))
      && (read == |s| - 1 ==>
            && (written.None? <==> was.meta.deleting && left == {})
            && (written.Some? ==> written.value.meta == was.meta.(finalizers := left)
                                  && written.value.status == was.status
                                  && written.value.spec == was.spec.(state := Effective(was.spec.state))))
      && (deleted.None? <==> was.meta.finalizers == {})
      && (deleted.Some? ==> deleted.value == was.(meta := was.meta.(deleting := true)))
  {
    var finalizers := Current(s).value.meta.finalizers;
    assert finalizers + {BOT_FINALIZER} == finalizers - {BOT_FINALIZER} + {BOT_FINALIZER};
  }

  /** A v1alpha1-typed status update is never guarded: it resets a Stopped bot. This is why the operator patches status
      through v1beta1, which is the StatusPatch event. */
  lemma {:induction false} AlphaStatusWriteResets(env: Setting, events: seq<Event>, a: Alpha)
    requires TypedAlpha(env.sh, a) && TradeMode(a) && Current(Run(env, events)).Some?
    ensures var s := Run(env, events);
            var o' := Current(Next(env, s, AlphaStatusWrite(a)));
            o'.Some? && Effective(o'.value.spec.state) == "Running"
  {
    AlphaStateIsRunning(env.sh, a);
  }
}
