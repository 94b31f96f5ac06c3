/** Keeping a bot in its desired run state: the reconciler compares spec.state with what the poller last saw and issues
    start and stop calls; the bot may crash, become unreachable, or change under the operator's feet. */
module StateReconciliation {
  import opened Wrappers
  import opened Conditions
  import opened TradeBotStatus
  import Conversion = TradeBotConversion

  datatype Reply = Done | Refused | LostReply         // LostReply: the call took effect, the caller saw an error

  /** One call the operator issued, with what it knew when it did. */
  datatype Call = Call(stop: bool, desired: string, seen: Status)

  datatype World = World(
    desired: string,                    // spec.state: "", "Running" or "Stopped"
    actual: string,                     // the bot's own state: "running", "stopped", or another of its states
    reachable: bool,
    status: Status,                     // as stored
    past: seq<Status>,                  // every status stored so far, the current one included
    asked: seq<string>,                 // every spec.state so far, the current one included
    polls: map<nat, PollOutcome>,       // polls that have read the bot and not yet stored what they saw
    calls: seq<Call>)

  datatype Env = Env(
    seen: Status, desired: string,      // what the reconciler's reads returned
    credentials: bool, reply: Reply, patchOk: bool, message: string, now: int, pollInterval: nat)

  datatype Event =
    | PollReads(id: nat, report: BotStatus, reason: Reason, error: string)
    | PollStores(id: nat, generation: int, now: int)
    | Reconcile(env: Env)
    | OtherPatch(m: Mutate)                         // the rest of the operator's status writes
    | SpecEdited(state: string)
    | Restarted(state: string)                      // the bot crashed and came back, or changed by itself
    | ReachabilityChanged(reachable: bool)

  function Store(w: World, m: Mutate): World {
    w.(status := TradeBotStatus.Apply(w.status, m), past := w.past + [TradeBotStatus.Apply(w.status, m)])
  }

  predicate Matches(desired: string, state: string) {
    || (Conversion.Effective(desired) == "Running" && state == "running")
    || (Conversion.Effective(desired) == "Stopped" && state == "stopped")
  }

  function Observed(s: Status): string {
    if s.bot.Some? then s.bot.value.state else "unknown"
  }

  /** What a poll sees, at the instant it asks the bot. */
  function Seen(w: World, report: BotStatus, reason: Reason, error: string): PollOutcome {
    if w.reachable then Reached(report.(state := w.actual)) else Unreached(reason, error)
  }

  function VerdictOf(env: Env): Verdict {
    if !IsStatusConditionTrue(env.seen.conditions, BotReachable) then Unreachable
    else if Matches(env.desired, Observed(env.seen)) then InDesiredState
    else if !env.credentials then NoCredentials
    else if env.reply == Done then CallIssued
    else CallFailed
  }

  predicate Calls(env: Env) {
    VerdictOf(env).CallIssued? || VerdictOf(env).CallFailed?
  }

  /** reconcileState: at most one call, then the verdict is recorded if the patch goes through. */
  function Reconciled(w: World, env: Env): World {
    var stop := Conversion.Effective(env.desired) == "Stopped";
    var called :=
      if Calls(env) then
        w.(calls := w.calls + [Call(stop, env.desired, env.seen)],
           actual := if env.reply == Refused then w.actual else if stop then "stopped" else "running")
      else w;
    if env.patchOk then Store(called, StateChecked(VerdictOf(env), env.message, env.now)) else called
  }

  function Next(w: World, e: Event): World {
    match e
    case PollReads(id, report, reason, error) => w.(polls := w.polls[id := Seen(w, report, reason, error)])
    case PollStores(id, generation, now) =>
      if id in w.polls then Store(w, Polled(w.polls[id], generation, now)).(polls := w.polls - {id}) else w
    case Reconcile(env) => if env.seen in w.past && env.desired in w.asked then Reconciled(w, env) else w
    case OtherPatch(m) => if m.WorkloadObserved? || m.ReconcileFailed? then Store(w, m) else w
    case SpecEdited(state) => w.(desired := state, asked := w.asked + [state])
    case Restarted(state) => w.(actual := state)
    case ReachabilityChanged(r) => w.(reachable := r)
  }

  function Run(w: World, events: seq<Event>): World {
    if events == [] then w else Next(Run(w, events[..|events| - 1]), events[|events| - 1])
  }

  function Fresh(desired: string, actual: string, reachable: bool): World {
    World(desired, actual, reachable, EMPTY_STATUS, [EMPTY_STATUS], [desired], map[], [])
  }

  // ---------- Every call was called for ----------

  predicate CalledFor(w: World, c: Call) {
    && c.seen in w.past && c.desired in w.asked
    && c.stop == (Conversion.Effective(c.desired) == "Stopped")
    && IsStatusConditionTrue(c.seen.conditions, BotReachable)
    && !Matches(c.desired, Observed(c.seen))
  }

  /** In every run, whatever crashed, lagged or was edited meanwhile: each call went in the direction some stored spec
      asked for, and to a bot that a stored status reported reachable and not yet there. */
  lemma {:induction false} EveryCallWasCalledFor(w: World, events: seq<Event>, c: Call)
    requires w.calls == [] && c in Run(w, events).calls
    ensures CalledFor(Run(w, events), c)
  {
    if events != [] {
      var before, e := Run(w, events[..|events| - 1]), events[|events| - 1];
      if c in before.calls {
        EveryCallWasCalledFor(w, events[..|events| - 1], c);
      } else {
        assert e.Reconcile? && c == Call(Conversion.Effective(e.env.desired) == "Stopped", e.env.desired, e.env.seen);
      }
    }
  }

  // ---------- Conditions after a step ----------

  lemma PollIsStored(w: World, e: Event)
    requires e.PollStores? && e.id in w.polls && w.polls[e.id].Reached?
    ensures var t := Next(w, e).status;
            && IsStatusConditionTrue(t.conditions, BotReachable) && Observed(t) == w.polls[e.id].bot.state
            && e.id !in Next(w, e).polls
            && FindStatusCondition(t.conditions, StateReconciled)
               == FindStatusCondition(w.status.conditions, StateReconciled)
  {
    var m := Polled(w.polls[e.id], e.generation, e.now);
    AfterMutate(w.status, m, BotReachable);
    LastOfSets(m, BotReachable);
    LastOfSets(m, StateReconciled);
    KeepsCondition(w.status, m, StateReconciled);
  }

  lemma KeepsCondition(s: Status, m: Mutate, kind: ConditionType)
    requires LastOf(Sets(m), kind).None?
    ensures FindStatusCondition(TradeBotStatus.Apply(s, m).conditions, kind) == FindStatusCondition(s.conditions, kind)
  {
    AfterMutate(s, m, kind);
  }

  lemma OtherPatchKeeps(s: Status, m: Mutate)
    requires m.WorkloadObserved? || m.ReconcileFailed?
    ensures var t := TradeBotStatus.Apply(s, m);
            && t.bot == s.bot
            && FindStatusCondition(t.conditions, BotReachable) == FindStatusCondition(s.conditions, BotReachable)
            && FindStatusCondition(t.conditions, StateReconciled) == FindStatusCondition(s.conditions, StateReconciled)
  {
    LastOfSets(m, BotReachable);
    LastOfSets(m, StateReconciled);
    KeepsCondition(s, m, BotReachable);
    KeepsCondition(s, m, StateReconciled);
  }

  lemma VerdictIsStored(s: Status, v: Verdict, message: string, now: int)
    ensures var t := TradeBotStatus.Apply(s, StateChecked(v, message, now));
            && t.bot == s.bot
            && FindStatusCondition(t.conditions, BotReachable) == FindStatusCondition(s.conditions, BotReachable)
            && (IsStatusConditionTrue(t.conditions, StateReconciled) <==> v.InDesiredState?)
  {
    var m := StateChecked(v, message, now);
    LastOfSets(m, BotReachable);
    LastOfSets(m, StateReconciled);
    KeepsCondition(s, m, BotReachable);
    AfterMutate(s, m, StateReconciled);
  }

  /** StateReconciled says exactly this about the copies the last recorded reconcile read: the poller's last report was
      a reachable bot in the desired state. It says nothing about the bot now. */
  lemma VerdictExactly(w: World, env: Env)
    requires env.seen in w.past && env.desired in w.asked && env.patchOk
    ensures IsStatusConditionTrue(Next(w, Reconcile(env)).status.conditions, StateReconciled)
       <==> IsStatusConditionTrue(env.seen.conditions, BotReachable) && Matches(env.desired, Observed(env.seen))
  {
    VerdictIsStored(w.status, VerdictOf(env), env.message, env.now);
  }

  /** What spec.state asks of the bot, in the bot's own words. */
  function Target(desired: string): string {
    if desired == "Stopped" then "stopped" else "running"
  }

  /** One reconcile, from the copies it read: it calls exactly when they show a reachable bot in another state than
      asked and it has credentials; the call goes towards the target and takes effect unless the bot refuses; and the
      verdict tells the four other endings apart by its reason. */
  lemma {:induction false} ReconcileExactly(w: World, env: Env)
    requires env.seen in w.past && env.desired in w.asked && env.desired in {"", "Running", "Stopped"}
    ensures
      var w', reachable := Next(w, Reconcile(env)), IsStatusConditionTrue(env.seen.conditions, BotReachable);
      var there := env.seen.bot.Some? && env.seen.bot.value.state == Target(env.desired);
      var calls := reachable && !there && env.credentials;
      && w'.calls == w.calls + (if calls then [Call(env.desired == "Stopped", env.desired, env.seen)] else [])
      && w'.actual == (if calls && env.reply != Refused then Target(env.desired) else w.actual)
      && (!env.patchOk ==> w'.status == w.status)
      && (env.patchOk ==>
            var c := FindStatusCondition(w'.status.conditions, StateReconciled);
            && c.Some? && c.value.message == env.message
            && (c.value.status == True <==> reachable && there)
            && c.value.reason == if !reachable then BotUnreachable else if there then AsExpected
                                 else if env.credentials && env.reply == Done then StateChangePending
                                 else StateChangeFailed)
  {
    var m := StateChecked(VerdictOf(env), env.message, env.now);
    AfterMutate(w.status, m, StateReconciled);
    LastOfSets(m, StateReconciled);
  }

  /** So right after an edit, or a crash, StateReconciled can be True of a bot that is not in the desired state. */
  lemma VerdictOutlivesEdit(w: World, state: string)
    requires IsStatusConditionTrue(w.status.conditions, StateReconciled) && Matches(w.desired, w.actual)
    requires state in {"Running", "Stopped"} && state != Conversion.Effective(w.desired)
    ensures var w' := Next(w, SpecEdited(state));
            IsStatusConditionTrue(w'.status.conditions, StateReconciled) && !Matches(w'.desired, w'.actual)
  {}

  // ---------- Convergence ----------

  /** The quiet events: polls, any number of them at once, reconciles that read the current objects and whose calls and
      patches go through, and the operator's unrelated patches. The bot does not crash and the spec is not edited. */
  predicate Quiet(w: World, e: Event) {
    match e
    case PollReads(_, _, _, _) => true
    case PollStores(_, _, _) => true
    case OtherPatch(_) => true
    case Reconcile(env) =>
      env.seen == w.status && env.desired == w.desired && env.credentials && env.reply == Done && env.patchOk
    case _ => false
  }

  predicate QuietRun(w: World, events: seq<Event>) {
    events == [] ||
    (QuietRun(w, events[..|events| - 1]) && Quiet(Run(w, events[..|events| - 1]), events[|events| - 1]))
  }

  /** The event that takes the pattern read, store, reconcile, read, store, reconcile one further. A read counts when no
      other poll has yet to store what it saw (always so for a bot the poller never forgot). */
  predicate Advances(w: World, e: Event, p: nat) {
    p < 6 &&
    if p % 3 == 0 then e.PollReads? && w.polls.Keys <= {e.id}
    else if p % 3 == 1 then e.PollStores? && e.id in w.polls
    else e.Reconcile?
  }

  /** How much of that pattern the events contain, in that order, anything in between. */
  function Progress(w: World, events: seq<Event>): nat {
    if events == [] then 0
    else
      var before, e := events[..|events| - 1], events[|events| - 1];
      var p := Progress(w, before);
      if Advances(Run(w, before), e, p) then p + 1 else p
  }

  predicate SeenReachable(w: World) {
    IsStatusConditionTrue(w.status.conditions, BotReachable)
  }

  predicate SeenMatching(w: World) {
    SeenReachable(w) && Matches(w.desired, w.actual) && Matches(w.desired, Observed(w.status))
  }

  /** What the poll saw is how the bot is, unless a call has put the bot where it should be since. */
  predicate Trustworthy(w: World, o: PollOutcome) {
    o.Reached? && (o.bot.state == w.actual || Matches(w.desired, w.actual))
  }

  predicate SawMatching(w: World, o: PollOutcome) {
    o.Reached? && Matches(w.desired, o.bot.state)
  }

  predicate Settling(w: World) {
    w.reachable && w.desired in {"", "Running", "Stopped"} && w.status in w.past && w.desired in w.asked
  }

  /** What holds once that much has happened. */
  predicate Settled(w: World, progress: nat) {
    && Settling(w)
    && (progress >= 1 ==> forall id :: id in w.polls ==> Trustworthy(w, w.polls[id]))
    && (progress >= 2 ==> SeenReachable(w))
    && (progress == 2 ==> Observed(w.status) == w.actual || Matches(w.desired, w.actual))
    && (progress >= 3 ==> Matches(w.desired, w.actual))
    && (progress >= 4 ==> forall id :: id in w.polls ==> SawMatching(w, w.polls[id]))
    && (progress >= 5 ==> SeenMatching(w))
    && (progress >= 6 ==> IsStatusConditionTrue(w.status.conditions, StateReconciled))
  }

  lemma QuietRead(w: World, e: Event, p: nat)
    requires e.PollReads? && Quiet(w, e) && Settled(w, p)
    ensures Settled(Next(w, e), if Advances(w, e, p) then p + 1 else p) && Next(w, e).calls == w.calls
  {}

  lemma QuietStore(w: World, e: Event, p: nat)
    requires e.PollStores? && Settled(w, p)
    ensures Settled(Next(w, e), if Advances(w, e, p) then p + 1 else p) && Next(w, e).calls == w.calls
  {
    if e.id in w.polls && p >= 1 { PollIsStored(w, e); }
  }

  lemma QuietReconcile(w: World, env: Env, p: nat)
    requires Quiet(w, Reconcile(env)) && Settled(w, p)
    ensures Settled(Next(w, Reconcile(env)), if Advances(w, Reconcile(env), p) then p + 1 else p)
    ensures p >= 5 ==> Next(w, Reconcile(env)).calls == w.calls
  {
    VerdictIsStored(w.status, VerdictOf(env), env.message, env.now);
  }

  lemma QuietStep(w: World, e: Event, p: nat)
    requires Quiet(w, e) && Settled(w, p)
    ensures Settled(Next(w, e), if Advances(w, e, p) then p + 1 else p)
    ensures p >= 5 ==> Next(w, e).calls == w.calls
  {
    match e
    case PollReads(_, _, _, _) => QuietRead(w, e, p);
    case PollStores(_, _, _) => QuietStore(w, e, p);
    case Reconcile(env) => QuietReconcile(w, env, p);
    case OtherPatch(m) =>
      if m.WorkloadObserved? || m.ReconcileFailed? { OtherPatchKeeps(w.status, m); }
  }

  lemma {:induction false} QuietRunReaches(w: World, events: seq<Event>)
    requires QuietRun(w, events) && Settling(w)
    ensures Settled(Run(w, events), Progress(w, events)) && Run(w, events).desired == w.desired
  {
    if events != [] {
      var before := events[..|events| - 1];
      QuietRunReaches(w, before);
      QuietStep(Run(w, before), events[|events| - 1], Progress(w, before));
    }
  }

  /** The main result: from any state of status, bot and polls under way, however it came about, a quiet stretch that
      contains a whole poll, a reconcile, a whole poll and a reconcile in that order (each of these polls asking the bot
      after what comes before it, with no other poll under way at that instant) ends with the bot in the desired state
      and StateReconciled True. */
  lemma {:induction false} Converges(w: World, events: seq<Event>)
    requires Settling(w) && QuietRun(w, events) && Progress(w, events) == 6
    ensures var w' := Run(w, events);
            && w'.desired == w.desired && w'.actual == Target(w.desired)
            && IsStatusConditionTrue(w'.status.conditions, StateReconciled)
  {
    QuietRunReaches(w, events);
  }

  // ---------- When the calls are over ----------

  /** Nothing says that the bot is elsewhere: not the bot, if a poll can reach it, not the stored status, not a poll
      that has yet to store what it saw. */
  predicate AtRest(w: World) {
    && (w.reachable ==> Matches(w.desired, w.actual))
    && (SeenReachable(w) ==> Matches(w.desired, Observed(w.status)))
    && forall id :: id in w.polls && w.polls[id].Reached? ==> Matches(w.desired, w.polls[id].bot.state)
  }

  ghost predicate NeverCalls(w: World) {
    forall events :: QuietRun(w, events) ==> Run(w, events).calls == w.calls
  }

  lemma UnreachedIsStored(w: World, e: Event)
    requires e.PollStores? && e.id in w.polls && w.polls[e.id].Unreached?
    ensures !SeenReachable(Next(w, e))
  {
    var m := Polled(w.polls[e.id], e.generation, e.now);
    AfterMutate(w.status, m, BotReachable);
    LastOfSets(m, BotReachable);
  }

  lemma {:induction false} RestStep(w: World, e: Event)
    requires AtRest(w) && Quiet(w, e)
    ensures AtRest(Next(w, e)) && Next(w, e).calls == w.calls
  {
    match e
    case PollReads(_, _, _, _) =>
    case PollStores(id, _, _) =>
      if id in w.polls {
        if w.polls[id].Reached? { PollIsStored(w, e); } else { UnreachedIsStored(w, e); }
      }
    case Reconcile(env) => VerdictIsStored(w.status, VerdictOf(env), env.message, env.now);
    case OtherPatch(m) =>
      if m.WorkloadObserved? || m.ReconcileFailed? { OtherPatchKeeps(w.status, m); }
  }

  lemma {:induction false} RestLasts(w: World, events: seq<Event>)
    requires AtRest(w) && QuietRun(w, events)
    ensures AtRest(Run(w, events)) && Run(w, events).calls == w.calls
  {
    if events != [] {
      RestLasts(w, events[..|events| - 1]);
      RestStep(Run(w, events[..|events| - 1]), events[|events| - 1]);
    }
  }

  /** A reconcile that reads what is stored, and whose call and patch go through. */
  function Plain(w: World): Event {
    Reconcile(Env(w.status, w.desired, true, Done, true, "", 0, 0))
  }

  lemma UnmatchedCalls(w: World, env: Env)
    requires Quiet(w, Reconcile(env)) && w.status in w.past && w.desired in w.asked
    requires SeenReachable(w) && !Matches(w.desired, Observed(w.status))
    ensures |Next(w, Reconcile(env)).calls| == |w.calls| + 1
  {}

  /** A poll that asked the bot before a call and stores what it saw after everything had settled makes the next
      reconcile call again, although the bot is where it should be. The poller has such a poll for a bot that was
      forgotten in flight and tracked again. */
  lemma {:induction false} OvertakenPollCallsAgain(w: World, store: Event, env: Env)
    requires w.desired in w.asked
    requires store.PollStores? && store.id in w.polls && w.polls[store.id].Reached?
    requires !Matches(w.desired, w.polls[store.id].bot.state)
    requires Quiet(Next(w, store), Reconcile(env))
    ensures var w' := Next(Next(w, store), Reconcile(env));
            |w'.calls| == |w.calls| + 1 && Next(w, store).actual == w.actual
  {
    PollIsStored(w, store);
    UnmatchedCalls(Next(w, store), env);
  }

  lemma {:induction false} RunSteps(w: World, events: seq<Event>, e: Event)
    ensures Run(w, events + [e]) == Next(Run(w, events), e)
    ensures QuietRun(w, events + [e]) <==> QuietRun(w, events) && Quiet(Run(w, events), e)
  {
    assert (events + [e])[..|events + [e]| - 1] == events;
  }

  /** Some quiet stretch calls, if anything says that the bot is elsewhere. */
  lemma {:induction false} UnrestCalls(w: World) returns (events: seq<Event>)
    requires w.status in w.past && w.desired in w.asked && !AtRest(w)
    ensures QuietRun(w, events) && |Run(w, events).calls| == |w.calls| + 1
  {
    events := [];
    if SeenReachable(w) && !Matches(w.desired, Observed(w.status)) {
      UnmatchedCalls(w, Plain(w).env);
      RunSteps(w, events, Plain(w));
      return events + [Plain(w)];
    }
    var w1, store := w, PollStores(0, 0, 0);
    if id :| id in w.polls && w.polls[id].Reached? && !Matches(w.desired, w.polls[id].bot.state) {
      store := PollStores(id, 0, 0);
    } else {
      var read := PollReads(0, EMPTY_BOT_STATUS, Timeout, "");
      RunSteps(w, events, read);
      w1, events := Next(w, read), events + [read];
    }
    var w2 := Next(w1, store);
    OvertakenPollCallsAgain(w1, store, Plain(w2).env);
    RunSteps(w, events, store);
    RunSteps(w, events + [store], Plain(w2));
    events := events + [store] + [Plain(w2)];
  }

  /** No call is issued any more, however long the quiet goes on and however many polls overlap in it, exactly when
      nothing says by now that the bot is elsewhere. Once things have settled (SeenMatching) that is: exactly when no
      poll still to be stored saw the bot elsewhere. */
  lemma {:induction false} NeverCallsExactly(w: World)
    requires w.status in w.past && w.desired in w.asked
    ensures NeverCalls(w) <==> AtRest(w)
    ensures SeenMatching(w) ==>
      (NeverCalls(w) <==>
       forall id :: id in w.polls && w.polls[id].Reached? ==> Matches(w.desired, w.polls[id].bot.state))
  {
    if AtRest(w) {
      forall events | QuietRun(w, events) ensures Run(w, events).calls == w.calls { RestLasts(w, events); }
    } else {
      var events := UnrestCalls(w);
      assert Run(w, events).calls != w.calls;
    }
  }

  /** So once the second poll of the pattern has stored what it saw, no call is issued any more. */
  lemma {:induction false} NoFurtherCalls(w: World, events: seq<Event>)
    requires Settling(w) && QuietRun(w, events) && Progress(w, events) >= 5
    ensures NeverCalls(Run(w, events))
  {
    QuietRunReaches(w, events);
    NeverCallsExactly(Run(w, events));
  }

  function Reconciles(events: seq<Event>): nat {
    if events == [] then 0
    else Reconciles(events[..|events| - 1]) + if events[|events| - 1].Reconcile? then 1 else 0
  }

  /** The poller's part of the status, the spec and their histories are as they were. */
  predicate Unpolled(w: World, w': World) {
    && w'.status in w'.past && w'.desired == w.desired && w'.asked == w.asked
    && SeenReachable(w') && Observed(w'.status) == Observed(w.status)
  }

  lemma {:induction false} UnpolledStep(w: World, e: Event)
    requires Quiet(w, e) && !e.PollStores? && w.status in w.past && w.desired in w.asked && SeenReachable(w)
    ensures Unpolled(w, Next(w, e))
    ensures |Next(w, e).calls| ==
            |w.calls| + if e.Reconcile? && !Matches(w.desired, Observed(w.status)) then 1 else 0
  {
    match e
    case PollReads(_, _, _, _) =>
    case Reconcile(env) => VerdictIsStored(w.status, VerdictOf(env), env.message, env.now);
    case OtherPatch(m) => if m.WorkloadObserved? || m.ReconcileFailed? { OtherPatchKeeps(w.status, m); }
  }

  /** Until the next poll stores what it saw, though, every reconcile repeats the call: a quiet stretch without such a
      store issues none if the stored status shows the bot as desired, and otherwise as many as it has reconciles. One
      call per change is issued exactly when there is one reconcile before the next stored poll. */
  lemma {:induction false} CallsRepeatUntilPolled(w: World, events: seq<Event>)
    requires QuietRun(w, events) && forall e :: e in events ==> !e.PollStores?
    requires w.status in w.past && w.desired in w.asked && SeenReachable(w)
    ensures Unpolled(w, Run(w, events))
    ensures |Run(w, events).calls| ==
            |w.calls| + if Matches(w.desired, Observed(w.status)) then 0 else Reconciles(events)
  {
    if events != [] {
      var before, e := events[..|events| - 1], events[|events| - 1];
      assert events == before + [e] && e in events;
      CallsRepeatUntilPolled(w, before);
      UnpolledStep(Run(w, before), e);
    }
  }

  // ---------- The reconciler as it runs ----------

  class Controller {
    var desired: string
    var actual: string
    var reachable: bool
    var status: Status
    ghost var past: seq<Status>
    ghost var asked: seq<string>
    ghost var polls: map<nat, PollOutcome>
    ghost var calls: seq<Call>

    ghost function View(): World reads this {
      World(desired, actual, reachable, status, past, asked, polls, calls)
    }

    constructor (desired: string, actual: string, reachable: bool)
      ensures View() == Fresh(desired, actual, reachable)
    {
      this.desired, this.actual, this.reachable, status := desired, actual, reachable, EMPTY_STATUS;
      past, asked, polls, calls := [EMPTY_STATUS], [desired], map[], [];
    }

    /** patchTradeBotStatus around SetStatusCondition(StateReconciled, ...). */
    method Record(verdict: Verdict, env: Env)
      modifies this`status, this`past
      ensures View() == if env.patchOk then Store(old(View()), StateChecked(verdict, env.message, env.now))
                        else old(View())
    {
      if env.patchOk {
        var c := Make(StateReconciled, if verdict.InDesiredState? then True else False, verdict.Reason(), env.message);
        var conditions := SetStatusCondition(status.conditions, c, env.now);
        assert SetAll(SetStatusCondition(status.conditions, c, env.now), [c][1..], env.now) == conditions;
        status := status.(conditions := conditions);
        past := past + [status];
      }
    }

    /** reconcileStateChange: one start or stop call, then its outcome. The requeue delay is positive exactly when the
        call was answered, and longer than a poll interval. */
    method ReconcileStateChange(env: Env) returns (requeue: nat)
      requires Calls(env)
      modifies this`actual, this`calls, this`status, this`past
      ensures View() == Reconciled(old(View()), env)
      ensures requeue > 0 <==> env.reply == Done
      ensures requeue > 0 ==> requeue > env.pollInterval
    {
      var want := if env.desired == "" then "Running" else env.desired;
      calls := calls + [Call(want == "Stopped", env.desired, env.seen)];
      if env.reply != Refused { actual := if want == "Stopped" then "stopped" else "running"; }
      if env.reply != Done {
        Record(CallFailed, env);
        return 0;
      }
      Record(CallIssued, env);
      requeue := env.pollInterval + 5;
    }

    method ReconcileState(env: Env) returns (requeue: nat)
      modifies this`actual, this`calls, this`status, this`past
      ensures View() == Reconciled(old(View()), env)
      ensures requeue > 0 <==> VerdictOf(env).CallIssued?
      ensures requeue > 0 ==> requeue > env.pollInterval
    {
      var want := if env.desired == "" then "Running" else env.desired;
      if !IsStatusConditionTrue(env.seen.conditions, BotReachable) {
        Record(Unreachable, env);
        return 0;
      }
      var observed := "unknown";
      if env.seen.bot.Some? { observed := env.seen.bot.value.state; }
      if (want == "Running" && observed == "running") || (want == "Stopped" && observed == "stopped") {
        Record(InDesiredState, env);
        return 0;
      }
      if !env.credentials {
        Record(NoCredentials, env);
        return 0;
      }
      requeue := ReconcileStateChange(env);
    }
  }

  /** reconcileStateAndComputeRequeue: the sooner of the two delays, 0 meaning none was asked for. */
  function Requeue(routine: nat, stateChange: nat): (r: nat)
    ensures r == 0 <==> routine == 0 && stateChange == 0
    ensures (routine > 0 ==> r <= routine) && (stateChange > 0 ==> r <= stateChange)
    ensures r == routine || r == stateChange
  {
    if stateChange > 0 && (routine == 0 || stateChange < routine) then stateChange else routine
  }
}
