/** The bot poller: a scheduler that fills a bounded queue once per tick, a pool of workers that drain it, and the
    locked per-bot memory they share. Every event below is one critical section (or one channel receive). */
module BotPoller {
  import opened Wrappers

  type Key = string

  datatype PollState = PollState(nextPollAt: int, consecutiveFailures: nat, inFlight: bool)

  /** A poll a worker is running; backedOff once it has reported its outcome to updateBackoff. */
  datatype Poll = Poll(key: Key, backedOff: bool)

  /** What happened, for stating what the memory should be: ghost history, not part of the poller. */
  datatype Mark =
    | Tracked(key: Key, now: int)
    | Enqueued(key: Key, now: int)
    | Forgotten(keys: set<Key>)
    | Applied(key: Key, reachable: bool, interval: int, now: int)

  datatype Poller = Poller(
    workers: nat, state: map<Key, PollState>, queue: seq<Key>, running: multiset<Poll>, marks: seq<Mark>)

  /** One TradeBot as List returned it; marked: its BotReachable already says that introspection is off for this
      generation. */
  datatype Item = Item(key: Key, tradeMode: bool, introspection: bool, marked: bool)

  datatype Event =
    | Tick(list: seq<Item>, now: int, takes: seq<nat>)   // takes[i]: receives by workers before item i is visited
    | ListFails
    | Take                                               // a worker receives the next key
    | Backoff(key: Key, reachable: bool, interval: int, now: int)
    | Finish(poll: Poll)                                 // pollOne returns, early or not, or panics: its defer runs

  // ---------- Backoff arithmetic ----------

  const MAX_INT64: int := 0x7FFF_FFFF_FFFF_FFFF

  /** Two's complement 64-bit truncation of a product of durations. */
  function Wrap64(x: int): int {
    (x + 0x8000_0000_0000_0000) % 0x1_0000_0000_0000_0000 - 0x8000_0000_0000_0000
  }

  function Pow2(n: nat): nat {
    if n == 0 then 1 else 2 * Pow2(n - 1)
  }

  /** The delay as computed: shift clamped at 4, both products truncated to 64 bits, then the cap. */
  function Delay(interval: int, failures: nat): int {
    if failures == 0 then interval
    else
      var shift := if failures > 4 then 4 else failures;
      var backoff := Wrap64(interval * Pow2(shift));
      var maxBackoff := Wrap64(interval * 10);
      if backoff > maxBackoff then maxBackoff else backoff
  }

  /** The delay as meant: doubling per failure, at most ten intervals. */
  function CappedDoubling(interval: int, failures: nat): int {
    interval * (if Pow2(failures) < 10 then Pow2(failures) else 10)
  }

  lemma {:induction false} Pow2AtLeast16(n: nat)
    requires n >= 4
    ensures Pow2(n) >= 16
  {
    if n == 4 {
      assert Pow2(4) == 2 * Pow2(3) && Pow2(3) == 2 * Pow2(2) && Pow2(2) == 4;
    } else {
      Pow2AtLeast16(n - 1);
    }
  }

  lemma Wrap64Id(x: int)
    requires -0x8000_0000_0000_0000 <= x <= MAX_INT64
    ensures Wrap64(x) == x
  {}

  lemma DelayInRange(interval: int, n: nat)
    requires 0 < interval <= MAX_INT64 / 16
    ensures Delay(interval, n) == CappedDoubling(interval, n)
  {
    assert Pow2(1) == 2 && Pow2(2) == 4 && Pow2(3) == 8 && Pow2(4) == 16;
    if n >= 1 {
      var shift := if n > 4 then 4 else n;
      assert interval * Pow2(shift) <= interval * 16;
      Wrap64Id(interval * Pow2(shift));
      Wrap64Id(interval * 10);
      if n >= 4 { Pow2AtLeast16(n); }
    }
  }

  /** The clamped shift computes the capped doubling for every failure count exactly when sixteen intervals fit in a
      64-bit duration. */
  lemma DelayIsCappedDoubling(interval: int)
    requires 0 < interval <= MAX_INT64
    ensures (forall n: nat :: n >= 1 ==> Delay(interval, n) == CappedDoubling(interval, n))
         <==> interval <= MAX_INT64 / 16
  {
    if interval <= MAX_INT64 / 16 {
      forall n: nat | n >= 1 ensures Delay(interval, n) == CappedDoubling(interval, n) { DelayInRange(interval, n); }
    } else {
      assert Pow2(4) == 16 by { assert Pow2(2) == 4 && Pow2(3) == 8; }
      var backoff, maxBackoff := Wrap64(interval * 16), Wrap64(interval * 10);
      assert Delay(interval, 4) != CappedDoubling(interval, 4);
    }
  }

  lemma DelayIsMonotone(interval: int, m: nat, n: nat)
    requires 0 < interval <= MAX_INT64 / 16 && m <= n
    ensures interval <= Delay(interval, m) <= Delay(interval, n) <= 10 * interval
  {
    DelayInRange(interval, m);
    DelayInRange(interval, n);
    Pow2Monotone(m, n);
    Pow2Monotone(0, m);
  }

  lemma {:induction false} Pow2Monotone(m: nat, n: nat)
    requires m <= n
    ensures Pow2(m) <= Pow2(n)
  {
    if m < n { Pow2Monotone(m, n - 1); }
  }

  // ---------- Steps ----------

  function Receive(p: Poller): Poller {
    if p.queue == [] || |p.running| >= p.workers then p
    else p.(queue := p.queue[1..], running := p.running + multiset{Poll(p.queue[0], false)})
  }

  function Receives(p: Poller, n: nat): Poller
    decreases n
  {
    if n == 0 then p else Receives(Receive(p), n - 1)
  }

  predicate Wanted(i: Item) { i.tradeMode && i.introspection }

  /** The body of the loop over the list, for a bot that should be polled. */
  function Visit(p: Poller, key: Key, now: int): Poller {
    var tracked := if key in p.state then p
                   else p.(state := p.state[key := PollState(now, 0, false)], marks := p.marks + [Tracked(key, now)]);
    var st := tracked.state[key];
    if st.inFlight || now < st.nextPollAt || |tracked.queue| >= 2 * tracked.workers then tracked
    else tracked.(state := tracked.state[key := st.(inFlight := true)], queue := tracked.queue + [key],
                  marks := tracked.marks + [Enqueued(key, now)])
  }

  function VisitAll(p: Poller, list: seq<Item>, now: int, takes: seq<nat>, n: nat): Poller
    requires n <= |list|
  {
    if n == 0 then p
    else
      var before := VisitAll(p, list, now, takes, n - 1);
      var ready := if n <= |takes| then Receives(before, takes[n - 1]) else before;
      if Wanted(list[n - 1]) then Visit(ready, list[n - 1].key, now) else ready
  }

  function Seen(list: seq<Item>): set<Key> {
    set i | i in list && Wanted(i) :: i.key
  }

  function Cleanup(p: Poller, seen: set<Key>): Poller {
    p.(state := map k | k in p.state && k in seen :: p.state[k], marks := p.marks + [Forgotten(p.state.Keys - seen)])
  }

  function UpdateBackoff(p: Poller, key: Key, reachable: bool, interval: int, now: int): Poller {
    if key !in p.state then p
    else
      var st := p.state[key];
      var failures := if reachable then 0 else st.consecutiveFailures + 1;
      p.(state := p.state[key := st.(consecutiveFailures := failures, nextPollAt := now + Delay(interval, failures))],
         marks := p.marks + [Applied(key, reachable, interval, now)])
  }

  function Next(p: Poller, e: Event): Poller {
    match e
    case Tick(list, now, takes) => Cleanup(VisitAll(p, list, now, takes, |list|), Seen(list))
    case ListFails => p
    case Take => Receive(p)
    case Backoff(key, reachable, interval, now) =>
      if Poll(key, false) !in p.running then p
      else UpdateBackoff(p, key, reachable, interval, now).(
             running := p.running - multiset{Poll(key, false)} + multiset{Poll(key, true)})
    case Finish(poll) =>
      if poll !in p.running then p
      else p.(running := p.running - multiset{poll},
              state := if poll.key in p.state then p.state[poll.key := p.state[poll.key].(inFlight := false)]
                       else p.state)
  }

  function Run(workers: nat, events: seq<Event>): Poller {
    if events == [] then Poller(workers, map[], [], multiset{}, [])
    else Next(Run(workers, events[..|events| - 1]), events[|events| - 1])
  }

  // ---------- How many polls a bot has ----------

  function Polls(p: Poller, key: Key): nat {
    multiset(p.queue)[key] + p.running[Poll(key, false)] + p.running[Poll(key, true)]
  }

  function Forgets(marks: seq<Mark>, key: Key): nat {
    if marks == [] then 0
    else (Forgets(marks[..|marks| - 1], key)
          + if marks[|marks| - 1].Forgotten? && key in marks[|marks| - 1].keys then 1 else 0)
  }

  predicate InFlight(p: Poller, key: Key) {
    key in p.state && p.state[key].inFlight
  }

  ghost predicate Bounded(p: Poller) {
    && |p.queue| <= 2 * p.workers
    && |p.running| <= p.workers
    && forall key :: InFlight(p, key) ==> Polls(p, key) >= 1
  }

  ghost predicate WithinForgets(p: Poller, key: Key) {
    Polls(p, key) <= Forgets(p.marks, key) + (if InFlight(p, key) then 1 else 0)
  }

  lemma {:induction false} ForgetsAppend(marks: seq<Mark>, m: Mark, key: Key)
    ensures Forgets(marks + [m], key) == Forgets(marks, key) + (if m.Forgotten? && key in m.keys then 1 else 0)
  {
    assert (marks + [m])[..|marks|] == marks;
  }

  ghost predicate Inv(p: Poller) {
    Bounded(p) && forall key :: WithinForgets(p, key)
  }

  lemma ReceiveKeepsInv(p: Poller)
    requires Inv(p)
    ensures Inv(Receive(p)) && Receive(p).state == p.state && Receive(p).marks == p.marks
  {
    if p.queue != [] && |p.running| < p.workers {
      assert p.queue == [p.queue[0]] + p.queue[1..];
      forall key ensures Polls(Receive(p), key) == Polls(p, key) {}
      forall key ensures WithinForgets(Receive(p), key) { assert WithinForgets(p, key); }
    }
  }

  lemma {:induction false} ReceivesKeepInv(p: Poller, n: nat)
    requires Inv(p)
    ensures Inv(Receives(p, n)) && Receives(p, n).state == p.state && Receives(p, n).marks == p.marks
    decreases n
  {
    if n > 0 {
      ReceiveKeepsInv(p);
      ReceivesKeepInv(Receive(p), n - 1);
    }
  }

  lemma TrackKeepsInv(p: Poller, p': Poller, key: Key, now: int)
    requires Inv(p) && key !in p.state
    requires p' == p.(state := p.state[key := PollState(now, 0, false)], marks := p.marks + [Tracked(key, now)])
    ensures Inv(p')
  {
    forall k ensures WithinForgets(p', k) && InFlight(p', k) == InFlight(p, k) && Polls(p', k) == Polls(p, k) {
      assert WithinForgets(p, k);
      ForgetsAppend(p.marks, Tracked(key, now), k);
    }
  }

  lemma EnqueueKeepsInv(p: Poller, p': Poller, key: Key, now: int)
    requires Inv(p) && key in p.state && !p.state[key].inFlight && |p.queue| < 2 * p.workers
    requires p' == p.(state := p.state[key := p.state[key].(inFlight := true)], queue := p.queue + [key],
                      marks := p.marks + [Enqueued(key, now)])
    ensures Inv(p')
  {
    forall k ensures WithinForgets(p', k) && (InFlight(p', k) ==> Polls(p', k) >= 1) {
      assert WithinForgets(p, k);
      ForgetsAppend(p.marks, Enqueued(key, now), k);
    }
  }

  lemma {:induction false} VisitKeepsInv(p: Poller, key: Key, now: int)
    requires Inv(p)
    ensures Inv(Visit(p, key, now))
  {
    var p' := Visit(p, key, now);
    var tracked := if key in p.state then p
                   else p.(state := p.state[key := PollState(now, 0, false)], marks := p.marks + [Tracked(key, now)]);
    if key !in p.state { TrackKeepsInv(p, tracked, key, now); }
    if p' != tracked { EnqueueKeepsInv(tracked, p', key, now); }
  }

  lemma CleanupKeepsInv(p: Poller, seen: set<Key>)
    requires Inv(p)
    ensures Inv(Cleanup(p, seen))
  {
    var p' := Cleanup(p, seen);
    var m := Forgotten(p.state.Keys - seen);
    assert p'.queue == p.queue && p'.running == p.running && p'.marks == p.marks + [m];
    forall k ensures WithinForgets(p', k) && (InFlight(p', k) ==> Polls(p', k) >= 1) {
      assert WithinForgets(p, k);
      CleanupPolls(p, seen, k);
      ForgetsAppend(p.marks, m, k);
    }
  }

  lemma {:induction false} VisitAllKeepsInv(p: Poller, list: seq<Item>, now: int, takes: seq<nat>, n: nat)
    requires Inv(p) && n <= |list|
    ensures Inv(VisitAll(p, list, now, takes, n))
  {
    if n > 0 {
      VisitAllKeepsInv(p, list, now, takes, n - 1);
      var before := VisitAll(p, list, now, takes, n - 1);
      if n <= |takes| { ReceivesKeepInv(before, takes[n - 1]); }
      var ready := if n <= |takes| then Receives(before, takes[n - 1]) else before;
      VisitKeepsInv(ready, list[n - 1].key, now);
    }
  }

  lemma BackoffKeepsInv(p: Poller, key: Key, reachable: bool, interval: int, now: int)
    requires Inv(p)
    ensures Inv(Next(p, Backoff(key, reachable, interval, now)))
  {
    var p' := Next(p, Backoff(key, reachable, interval, now));
    if p' != p {
      assert |p'.running| == |p.running|;
      forall k ensures Polls(p', k) == Polls(p, k) && InFlight(p', k) == InFlight(p, k) {}
      forall k ensures WithinForgets(p', k) {
        assert WithinForgets(p, k);
        ForgetsAppend(p.marks, Applied(key, reachable, interval, now), k);
      }
    }
  }

  lemma FinishKeepsInv(p: Poller, poll: Poll)
    requires Inv(p)
    ensures Inv(Next(p, Finish(poll)))
  {
    var p' := Next(p, Finish(poll));
    if p' != p {
      assert |p'.running| == |p.running| - 1;
      forall k ensures Polls(p', k) == Polls(p, k) - (if k == poll.key then 1 else 0) {}
      forall k ensures WithinForgets(p', k) { assert WithinForgets(p, k); }
    }
  }

  lemma {:induction false} NextKeepsInv(p: Poller, e: Event)
    requires Inv(p)
    ensures Inv(Next(p, e))
  {
    match e
    case Tick(list, now, takes) =>
      VisitAllKeepsInv(p, list, now, takes, |list|);
      CleanupKeepsInv(VisitAll(p, list, now, takes, |list|), Seen(list));
    case ListFails =>
    case Take => ReceiveKeepsInv(p);
    case Backoff(key, reachable, interval, now) => BackoffKeepsInv(p, key, reachable, interval, now);
    case Finish(poll) => FinishKeepsInv(p, poll);
  }

  lemma {:induction false} RunKeepsInv(workers: nat, events: seq<Event>)
    ensures Inv(Run(workers, events)) && Run(workers, events).workers == workers
  {
    if events != [] {
      RunKeepsInv(workers, events[..|events| - 1]);
      NextKeepsInv(Run(workers, events[..|events| - 1]), events[|events| - 1]);
      WorkersKept(Run(workers, events[..|events| - 1]), events[|events| - 1]);
    }
  }

  lemma {:induction false} VisitAllKeepsWorkers(p: Poller, list: seq<Item>, now: int, takes: seq<nat>, n: nat)
    requires n <= |list|
    ensures VisitAll(p, list, now, takes, n).workers == p.workers
  {
    if n > 0 {
      VisitAllKeepsWorkers(p, list, now, takes, n - 1);
      if n <= |takes| { ReceivesKeepWorkers(VisitAll(p, list, now, takes, n - 1), takes[n - 1]); }
    }
  }

  lemma {:induction false} ReceivesKeepWorkers(p: Poller, n: nat)
    ensures Receives(p, n).workers == p.workers
    decreases n
  {
    if n > 0 { ReceivesKeepWorkers(Receive(p), n - 1); }
  }

  lemma WorkersKept(p: Poller, e: Event)
    ensures Next(p, e).workers == p.workers
  {
    if e.Tick? { VisitAllKeepsWorkers(p, e.list, e.now, e.takes, |e.list|); }
  }

  /** In every interleaving of ticks, full queues, workers, failed reads and panics: a bot's queued and running polls
      are at most the times it was forgotten, plus one if it is marked in flight; a marked bot really has a poll; and
      the pool never holds more than three polls per worker. */
  lemma PollsAreBounded(workers: nat, events: seq<Event>, key: Key)
    ensures var p := Run(workers, events);
            && Polls(p, key) <= Forgets(p.marks, key) + (if InFlight(p, key) then 1 else 0)
            && (InFlight(p, key) ==> Polls(p, key) >= 1)
            && |p.queue| + |p.running| <= 3 * workers
  {
    RunKeepsInv(workers, events);
    assert WithinForgets(Run(workers, events), key);
  }

  /** A bot that was never forgotten is marked in flight exactly while it has its one poll, so it is neither polled
      twice at once nor stuck. */
  lemma {:induction false} NeverForgottenHasOnePoll(workers: nat, events: seq<Event>, key: Key)
    requires Forgets(Run(workers, events).marks, key) == 0
    ensures Polls(Run(workers, events), key) == if InFlight(Run(workers, events), key) then 1 else 0
  {
    PollsAreBounded(workers, events, key);
  }

  /** A tick that sees only one bot, new to the poller and due at once. */
  lemma TickTracksAndEnqueues(p: Poller, key: Key, now: int)
    requires p.state == map[] && p.queue == [] && p.workers > 0
    ensures Next(p, Tick([Item(key, true, true, false)], now, []))
         == p.(state := map[key := PollState(now, 0, true)], queue := [key],
               marks := p.marks + [Tracked(key, now)] + [Enqueued(key, now)] + [Forgotten({})])
  {
    var list := [Item(key, true, true, false)];
    assert VisitAll(p, list, now, [], 1) == Visit(VisitAll(p, list, now, [], 0), key, now);
    var q := Visit(p, key, now);
    assert q.state == map[key := PollState(now, 0, true)];
    assert Item(key, true, true, false) in list && key in Seen(list);
    assert q.state.Keys - Seen(list) == {};
    assert Cleanup(q, Seen(list)).state == q.state;
  }

  /** A tick whose list is empty forgets every bot. */
  lemma TickForgetsAll(p: Poller, now: int)
    ensures Next(p, Tick([], now, [])) == p.(state := map[], marks := p.marks + [Forgotten(p.state.Keys)])
  {
    assert Seen([]) == {};
    assert p.state.Keys - {} == p.state.Keys;
  }

  lemma RunOfFour(workers: nat, a: Event, b: Event, c: Event, d: Event)
    ensures Run(workers, [a, b, c, d]) == Next(Next(Next(Next(Run(workers, []), a), b), c), d)
  {
    var es := [a, b, c, d];
    assert es[..1] == [a] && es[..2] == [a, b] && es[..3] == [a, b, c];
    assert es[..3][..2] == es[..2] && es[..2][..1] == es[..1] && es[..1][..0] == [];
    assert Run(workers, es[..1]) == Next(Run(workers, []), a);
    assert Run(workers, es[..2]) == Next(Run(workers, es[..1]), b);
    assert Run(workers, es[..3]) == Next(Run(workers, es[..2]), c);
  }

  /** The bound is met: a bot forgotten while its poll runs, and tracked again, has two polls at once. */
  lemma ForgottenInFlightIsPolledTwice(key: Key)
    ensures
      var bot := Item(key, true, true, false);
      var p := Run(2, [Tick([bot], 0, []), Take, Tick([], 5, []), Tick([bot], 10, [])]);
      Forgets(p.marks, key) == 1 && InFlight(p, key) && Polls(p, key) == 2
  {
    var bot := Item(key, true, true, false);
    var p0 := Poller(2, map[], [], multiset{}, []);
    RunOfFour(2, Tick([bot], 0, []), Take, Tick([], 5, []), Tick([bot], 10, []));
    TickTracksAndEnqueues(p0, key, 0);
    var marks := [] + [Tracked(key, 0)] + [Enqueued(key, 0)] + [Forgotten({})];
    assert Next(p0, Tick([bot], 0, [])) == Poller(2, map[key := PollState(0, 0, true)], [key], multiset{}, marks);
    TakeForgetTrack(key, marks);
    TwoTicksForget(key);
  }

  lemma TakeForgetTrack(key: Key, marks: seq<Mark>)
    ensures
      var p1 := Poller(2, map[key := PollState(0, 0, true)], [key], multiset{}, marks);
      Next(Next(Next(p1, Take), Tick([], 5, [])), Tick([Item(key, true, true, false)], 10, []))
      == Poller(2, map[key := PollState(10, 0, true)], [key], multiset{Poll(key, false)},
                marks + [Forgotten({key})] + [Tracked(key, 10)] + [Enqueued(key, 10)] + [Forgotten({})])
  {
    var p1 := Poller(2, map[key := PollState(0, 0, true)], [key], multiset{}, marks);
    var p2 := p1.(queue := [], running := multiset{Poll(key, false)});
    assert Next(p1, Take) == p2 by { assert p1.queue[1..] == []; }
    TickForgetsAll(p2, 5);
    assert p2.state.Keys == {key};
    TickTracksAndEnqueues(Next(p2, Tick([], 5, [])), key, 10);
  }

  lemma TwoTicksForget(key: Key)
    ensures Forgets([] + [Tracked(key, 0)] + [Enqueued(key, 0)] + [Forgotten({})] + [Forgotten({key})]
                    + [Tracked(key, 10)] + [Enqueued(key, 10)] + [Forgotten({})], key) == 1
  {
    var a := [] + [Tracked(key, 0)];
    var b := a + [Enqueued(key, 0)];
    var c := b + [Forgotten({})];
    var d := c + [Forgotten({key})];
    var e := d + [Tracked(key, 10)];
    var f := e + [Enqueued(key, 10)];
    ForgetsAppend([], Tracked(key, 0), key);
    ForgetsAppend(a, Enqueued(key, 0), key);
    ForgetsAppend(b, Forgotten({}), key);
    ForgetsAppend(c, Forgotten({key}), key);
    ForgetsAppend(d, Tracked(key, 10), key);
    ForgetsAppend(e, Enqueued(key, 10), key);
    ForgetsAppend(f, Forgotten({}), key);
  }

  // ---------- Exactly when a bot has two polls ----------

  function InFlightCount(p: Poller, key: Key): nat {
    if InFlight(p, key) then 1 else 0
  }

  /** The step forgets a bot that has a poll queued or running. */
  predicate ForgetsPolled(p: Poller, p': Poller, key: Key) {
    key in p.state && key !in p'.state && Polls(p, key) > 0
  }

  /** key was forgotten while it had a poll, and has not been without one since. */
  predicate Orphaned(workers: nat, events: seq<Event>, key: Key) {
    events != [] &&
    (var before := events[..|events| - 1];
     && Polls(Run(workers, events), key) > 0
     && (Orphaned(workers, before, key) || ForgetsPolled(Run(workers, before), Run(workers, events), key)))
  }

  lemma ReceivePolls(p: Poller, key: Key)
    ensures Polls(Receive(p), key) == Polls(p, key) && Receive(p).state == p.state
  {
    if p.queue != [] && |p.running| < p.workers { assert p.queue == [p.queue[0]] + p.queue[1..]; }
  }

  lemma {:induction false} ReceivesPolls(p: Poller, n: nat, key: Key)
    ensures Polls(Receives(p, n), key) == Polls(p, key) && Receives(p, n).state == p.state
    decreases n
  {
    if n > 0 {
      ReceivePolls(p, key);
      ReceivesPolls(Receive(p), n - 1, key);
    }
  }

  /** The step does not concern key. */
  predicate Aside(p: Poller, p': Poller, key: Key) {
    Polls(p', key) == Polls(p, key) && (key in p'.state <==> key in p.state) && InFlight(p', key) == InFlight(p, key)
  }

  /** key was enqueued as often as it was newly marked in flight, and not forgotten. */
  predicate InStep(p: Poller, p': Poller, key: Key) {
    && Polls(p', key) - Polls(p, key) == InFlightCount(p', key) - InFlightCount(p, key)
    && (key in p.state ==> key in p'.state)
  }

  lemma VisitPolls(p: Poller, visited: Key, now: int, key: Key)
    ensures key != visited ==> Aside(p, Visit(p, visited, now), key)
    ensures InStep(p, Visit(p, visited, now), key)
  {}

  lemma InStepThen(p: Poller, q: Poller, r: Poller, key: Key)
    requires InStep(p, q, key) && InStep(q, r, key)
    ensures InStep(p, r, key)
  {}

  lemma {:induction false} VisitAllInStep(p: Poller, list: seq<Item>, now: int, takes: seq<nat>, n: nat, key: Key)
    requires n <= |list|
    ensures InStep(p, VisitAll(p, list, now, takes, n), key)
  {
    if n > 0 {
      VisitAllInStep(p, list, now, takes, n - 1, key);
      var before := VisitAll(p, list, now, takes, n - 1);
      if n <= |takes| { ReceivesPolls(before, takes[n - 1], key); }
      var ready := if n <= |takes| then Receives(before, takes[n - 1]) else before;
      VisitPolls(ready, list[n - 1].key, now, key);
      InStepThen(p, ready, VisitAll(p, list, now, takes, n), key);
    }
  }

  lemma {:induction false} VisitAllAside(p: Poller, list: seq<Item>, now: int, takes: seq<nat>, n: nat, key: Key)
    requires n <= |list| && key !in Seen(list)
    ensures Aside(p, VisitAll(p, list, now, takes, n), key)
  {
    if n > 0 {
      VisitAllAside(p, list, now, takes, n - 1, key);
      var before := VisitAll(p, list, now, takes, n - 1);
      if n <= |takes| { ReceivesPolls(before, takes[n - 1], key); }
      var ready := if n <= |takes| then Receives(before, takes[n - 1]) else before;
      assert Aside(p, ready, key);
      assert list[n - 1] in list;
      if Wanted(list[n - 1]) {
        assert list[n - 1].key in Seen(list);
        VisitPolls(ready, list[n - 1].key, now, key);
      }
    }
  }

  lemma CleanupPolls(p: Poller, seen: set<Key>, key: Key)
    ensures Polls(Cleanup(p, seen), key) == Polls(p, key)
    ensures key in Cleanup(p, seen).state <==> key in p.state && key in seen
    ensures InFlight(Cleanup(p, seen), key) <==> InFlight(p, key) && key in seen
  {}

  lemma FinishPolls(p: Poller, poll: Poll, key: Key)
    requires poll in p.running
    ensures var p' := Next(p, Finish(poll));
            && Polls(p', key) == Polls(p, key) - (if poll.key == key then 1 else 0)
            && (key in p'.state <==> key in p.state)
            && InFlight(p', key) == (InFlight(p, key) && poll.key != key)
  {}

  lemma BackoffPolls(p: Poller, e: Event, key: Key)
    requires e.Backoff?
    ensures Polls(Next(p, e), key) == Polls(p, key) && InFlight(Next(p, e), key) == InFlight(p, key)
    ensures key in Next(p, e).state <==> key in p.state
  {}

  /** As long as a polled bot is not forgotten, its one poll and its mark come and go together. */
  lemma AttachedStep(p: Poller, e: Event, key: Key)
    requires Polls(p, key) == InFlightCount(p, key)
    ensures ForgetsPolled(p, Next(p, e), key) ==> Polls(Next(p, e), key) == Polls(p, key)
    ensures !ForgetsPolled(p, Next(p, e), key) ==> Polls(Next(p, e), key) == InFlightCount(Next(p, e), key)
  {
    match e
    case Tick(list, now, takes) =>
      VisitAllInStep(p, list, now, takes, |list|, key);
      if key !in Seen(list) { VisitAllAside(p, list, now, takes, |list|, key); }
      CleanupPolls(VisitAll(p, list, now, takes, |list|), Seen(list), key);
    case ListFails =>
    case Take => ReceivePolls(p, key);
    case Backoff(_, _, _, _) => BackoffPolls(p, e, key);
    case Finish(poll) => if poll in p.running { FinishPolls(p, poll, key); }
  }

  /** In every run: a bot not orphaned has exactly its one poll while marked in flight and none otherwise. */
  lemma {:induction false} NotOrphanedHasOnePoll(workers: nat, events: seq<Event>, key: Key)
    requires !Orphaned(workers, events, key)
    ensures Polls(Run(workers, events), key) == InFlightCount(Run(workers, events), key)
  {
    if events != [] {
      var before, p' := events[..|events| - 1], Run(workers, events);
      RunKeepsInv(workers, events);
      if Polls(p', key) > 0 {
        NotOrphanedHasOnePoll(workers, before, key);
        AttachedStep(Run(workers, before), events[|events| - 1], key);
      }
    }
  }

  /** A poll that is enqueued is a second one exactly if the bot was forgotten while it had a poll and has had one ever
      since. */
  lemma {:induction false} SecondPollExactly(workers: nat, events: seq<Event>, e: Event, key: Key)
    requires Polls(Next(Run(workers, events), e), key) > Polls(Run(workers, events), key)
    ensures Polls(Next(Run(workers, events), e), key) >= 2 <==> Orphaned(workers, events, key)
  {
    if !Orphaned(workers, events, key) {
      NotOrphanedHasOnePoll(workers, events, key);
      AttachedStep(Run(workers, events), e, key);
    }
  }

  lemma {:induction false} FirstSecondPoll(workers: nat, events: seq<Event>, key: Key) returns (i: nat)
    requires Polls(Run(workers, events), key) >= 2
    ensures i < |events| && Orphaned(workers, events[..i], key)
    ensures Polls(Run(workers, events[..i + 1]), key) > Polls(Run(workers, events[..i]), key)
  {
    var n := |events| - 1;
    if Polls(Run(workers, events[..n]), key) >= 2 {
      i := FirstSecondPoll(workers, events[..n], key);
      assert events[..n][..i] == events[..i] && events[..n][..i + 1] == events[..i + 1];
    } else {
      i := n;
      assert events[..n + 1] == events;
      SecondPollExactly(workers, events[..n], events[n], key);
    }
  }

  /** So a run has a moment with two polls of a bot at once exactly when it has one at which the bot, forgotten while
      polled and polled ever since, is enqueued again. */
  lemma {:induction false} TwoPollsExactly(workers: nat, events: seq<Event>, key: Key)
    ensures (exists i :: 0 <= i <= |events| && Polls(Run(workers, events[..i]), key) >= 2)
       <==> exists i :: 0 <= i < |events| && Orphaned(workers, events[..i], key)
                        && Polls(Run(workers, events[..i + 1]), key) > Polls(Run(workers, events[..i]), key)
  {
    if i :| 0 <= i <= |events| && Polls(Run(workers, events[..i]), key) >= 2 {
      var j := FirstSecondPoll(workers, events[..i], key);
      assert events[..i][..j] == events[..j] && events[..i][..j + 1] == events[..j + 1];
    }
    if i :| 0 <= i < |events| && Orphaned(workers, events[..i], key)
            && Polls(Run(workers, events[..i + 1]), key) > Polls(Run(workers, events[..i]), key) {
      assert Polls(Run(workers, events[..i + 1]), key) >= 2;
    }
  }

  // ---------- What the per-bot memory means ----------

  /** Failures applied to key since its last success, or since it was last tracked. */
  function FailuresSince(marks: seq<Mark>, key: Key): nat {
    if marks == [] then 0
    else
      var before, m := marks[..|marks| - 1], marks[|marks| - 1];
      if m.Tracked? && m.key == key then 0
      else if m.Applied? && m.key == key then if m.reachable then 0 else FailuresSince(before, key) + 1
      else FailuresSince(before, key)
  }

  /** The earliest instant key may be polled again, from its history alone. */
  function DueAt(marks: seq<Mark>, key: Key): int {
    if marks == [] then 0
    else
      var before, m := marks[..|marks| - 1], marks[|marks| - 1];
      if m.Tracked? && m.key == key then m.now
      else if m.Applied? && m.key == key then m.now + CappedDoubling(m.interval, FailuresSince(marks, key))
      else DueAt(before, key)
  }

  ghost predicate Remembers(p: Poller) {
    && (forall key :: key in p.state ==>
          && p.state[key].consecutiveFailures == FailuresSince(p.marks, key)
          && p.state[key].nextPollAt == DueAt(p.marks, key))
    && (forall i :: 0 <= i < |p.marks| && p.marks[i].Enqueued? ==>
          p.marks[i].now >= DueAt(p.marks[..i], p.marks[i].key))
  }

  /** A mark that concerns neither the failures nor the due time of key. */
  lemma {:induction false} UnrelatedMark(marks: seq<Mark>, m: Mark, key: Key)
    requires !((m.Tracked? || m.Applied?) && m.key == key)
    ensures FailuresSince(marks + [m], key) == FailuresSince(marks, key) && DueAt(marks + [m], key) == DueAt(marks, key)
  {
    assert (marks + [m])[..|marks|] == marks;
  }

  /** Extending the history by m keeps Remembers, given it is right about the keys m is about. */
  lemma {:induction false} AppendKeepsMemory(p: Poller, p': Poller, m: Mark)
    requires Remembers(p) && p'.marks == p.marks + [m]
    requires m.Enqueued? ==> m.now >= DueAt(p.marks, m.key)
    requires forall k :: k in p'.state && !((m.Tracked? || m.Applied?) && m.key == k) ==>
               k in p.state && p'.state[k].(inFlight := p.state[k].inFlight) == p.state[k]
    requires (m.Tracked? || m.Applied?) && m.key in p'.state ==>
               p'.state[m.key].consecutiveFailures == FailuresSince(p'.marks, m.key)
               && p'.state[m.key].nextPollAt == DueAt(p'.marks, m.key)
    ensures Remembers(p')
  {
    forall k | k in p'.state && !((m.Tracked? || m.Applied?) && m.key == k)
      ensures p'.state[k].consecutiveFailures == FailuresSince(p'.marks, k)
      ensures p'.state[k].nextPollAt == DueAt(p'.marks, k)
    {
      UnrelatedMark(p.marks, m, k);
    }
    forall i | 0 <= i < |p'.marks| && p'.marks[i].Enqueued?
      ensures p'.marks[i].now >= DueAt(p'.marks[..i], p'.marks[i].key)
    {
      assert p'.marks[..i] == p.marks[..i];
      if i == |p.marks| { assert p.marks[..i] == p.marks; }
    }
  }

  lemma {:induction false} VisitKeepsMemory(p: Poller, key: Key, now: int)
    requires Remembers(p)
    ensures Remembers(Visit(p, key, now))
  {
    var tracked := if key in p.state then p
                   else p.(state := p.state[key := PollState(now, 0, false)], marks := p.marks + [Tracked(key, now)]);
    if key !in p.state {
      assert tracked.marks[..|p.marks|] == p.marks;
      AppendKeepsMemory(p, tracked, Tracked(key, now));
    }
    var p' := Visit(p, key, now);
    if p' != tracked { AppendKeepsMemory(tracked, p', Enqueued(key, now)); }
  }

  lemma UpdateBackoffKeepsMemory(p: Poller, key: Key, reachable: bool, interval: int, now: int)
    requires Remembers(p) && 0 < interval <= MAX_INT64 / 16
    ensures Remembers(UpdateBackoff(p, key, reachable, interval, now))
  {
    if key in p.state {
      var p' := UpdateBackoff(p, key, reachable, interval, now);
      assert p'.marks[..|p.marks|] == p.marks;
      DelayInRange(interval, FailuresSince(p'.marks, key));
      AppendKeepsMemory(p, p', Applied(key, reachable, interval, now));
    }
  }

  lemma {:induction false} ReceivesKeepMemory(p: Poller, n: nat)
    ensures Receives(p, n).state == p.state && Receives(p, n).marks == p.marks
    decreases n
  {
    if n > 0 { ReceivesKeepMemory(Receive(p), n - 1); }
  }

  lemma {:induction false} VisitAllKeepsMemory(p: Poller, list: seq<Item>, now: int, takes: seq<nat>, n: nat)
    requires Remembers(p) && n <= |list|
    ensures Remembers(VisitAll(p, list, now, takes, n))
  {
    if n > 0 {
      VisitAllKeepsMemory(p, list, now, takes, n - 1);
      var before := VisitAll(p, list, now, takes, n - 1);
      if n <= |takes| { ReceivesKeepMemory(before, takes[n - 1]); }
      var ready := if n <= |takes| then Receives(before, takes[n - 1]) else before;
      VisitKeepsMemory(ready, list[n - 1].key, now);
    }
  }

  lemma {:induction false} NextKeepsMemory(p: Poller, e: Event)
    requires Remembers(p) && (e.Backoff? ==> 0 < e.interval <= MAX_INT64 / 16)
    ensures Remembers(Next(p, e))
  {
    match e
    case Tick(list, now, takes) =>
      VisitAllKeepsMemory(p, list, now, takes, |list|);
      var q := VisitAll(p, list, now, takes, |list|);
      AppendKeepsMemory(q, Cleanup(q, Seen(list)), Forgotten(q.state.Keys - Seen(list)));
    case ListFails =>
    case Take =>
    case Backoff(key, reachable, interval, now) => UpdateBackoffKeepsMemory(p, key, reachable, interval, now);
    case Finish(poll) =>
  }

  /** Over every run with representable intervals: the failure counter is the number of failures applied since the last
      success or re-tracking, the stored deadline is the capped doubling of it, and no poll was ever enqueued before
      the deadline its bot's history gave it. */
  lemma {:induction false} BackoffIsHonoured(workers: nat, events: seq<Event>)
    requires forall i :: 0 <= i < |events| && events[i].Backoff? ==> 0 < events[i].interval <= MAX_INT64 / 16
    ensures Remembers(Run(workers, events))
  {
    if events != [] {
      BackoffIsHonoured(workers, events[..|events| - 1]);
      NextKeepsMemory(Run(workers, events[..|events| - 1]), events[|events| - 1]);
    }
  }

  // ---------- A due bot is polled ----------

  /** A bot the next tick has to see to: no poll of it is under way, and it is new or its time has come. */
  predicate Due(p: Poller, key: Key, now: int) {
    !InFlight(p, key) && (key in p.state ==> p.state[key].nextPollAt <= now)
  }

  /** What the visits of a pass have done to one bot: seen, whether it was among them. */
  predicate Visited(p: Poller, p': Poller, key: Key, now: int, seen: bool) {
    if seen && Due(p, key, now) then
      && Polls(p', key) == Polls(p, key) + 1
      && key in p'.state
      && p'.state[key] == PollState(if key in p.state then p.state[key].nextPollAt else now,
                                    if key in p.state then p.state[key].consecutiveFailures else 0, true)
    else
      && Polls(p', key) == Polls(p, key)
      && (key in p'.state <==> key in p.state)
      && (key in p.state ==> p'.state[key] == p.state[key])
  }

  lemma {:induction false} ReceivesShorten(p: Poller, n: nat)
    ensures |Receives(p, n).queue| <= |p.queue| && Receives(p, n).workers == p.workers
    decreases n
  {
    if n > 0 { ReceivesShorten(Receive(p), n - 1); }
  }

  lemma {:induction false} VisitWithRoom(p: Poller, visited: Key, now: int, key: Key)
    requires |p.queue| < 2 * p.workers
    ensures Visited(p, Visit(p, visited, now), key, now, visited == key)
    ensures |Visit(p, visited, now).queue| <= |p.queue| + 1 && Visit(p, visited, now).workers == p.workers
  {}

  lemma {:induction false} VisitedThen(p: Poller, q: Poller, r: Poller, key: Key, now: int, first: bool, second: bool)
    requires Visited(p, q, key, now, first) && Visited(q, r, key, now, second)
    ensures Visited(p, r, key, now, first || second)
  {}

  lemma {:induction false} ItemVisited(p: Poller, q: Poller, item: Item, key: Key, now: int, seen: bool)
    requires Visited(p, q, key, now, seen) && |q.queue| < 2 * q.workers
    ensures var r := if Wanted(item) then Visit(q, item.key, now) else q;
            && Visited(p, r, key, now, seen || (Wanted(item) && item.key == key))
            && |r.queue| <= |q.queue| + 1 && r.workers == q.workers
  {
    if Wanted(item) {
      VisitWithRoom(q, item.key, now, key);
      VisitedThen(p, q, Visit(q, item.key, now), key, now, seen, item.key == key);
    }
  }

  lemma {:induction false} ReceivesVisited(p: Poller, q: Poller, n: nat, key: Key, now: int, seen: bool)
    requires Visited(p, q, key, now, seen)
    ensures Visited(p, Receives(q, n), key, now, seen)
    ensures |Receives(q, n).queue| <= |q.queue| && Receives(q, n).workers == q.workers
  {
    ReceivesShorten(q, n);
    ReceivesPolls(q, n, key);
  }

  lemma {:induction false} SeenStep(list: seq<Item>, n: nat)
    requires n < |list|
    ensures Seen(list[..n + 1]) == Seen(list[..n]) + if Wanted(list[n]) then {list[n].key} else {}
  {
    assert list[..n + 1] == list[..n] + [list[n]];
  }

  lemma {:induction false} VisitAllWithRoom(p: Poller, list: seq<Item>, now: int, takes: seq<nat>, n: nat, key: Key)
    requires n <= |list| && |p.queue| + |list| <= 2 * p.workers
    ensures var p' := VisitAll(p, list, now, takes, n);
            && Visited(p, p', key, now, key in Seen(list[..n]))
            && |p'.queue| <= |p.queue| + n && p'.workers == p.workers
  {
    if n > 0 {
      VisitAllWithRoom(p, list, now, takes, n - 1, key);
      var before := VisitAll(p, list, now, takes, n - 1);
      if n <= |takes| { ReceivesVisited(p, before, takes[n - 1], key, now, key in Seen(list[..n - 1])); }
      var ready := if n <= |takes| then Receives(before, takes[n - 1]) else before;
      SeenStep(list, n - 1);
      ItemVisited(p, ready, list[n - 1], key, now, key in Seen(list[..n - 1]));
    }
  }

  /** A tick with room in the queue gives a bot one more poll exactly when the bot is on the list, wanted, and due;
      marks it in flight with it; leaves every other listed bot as it was; and remembers exactly the wanted bots of the
      list, whatever workers receive meanwhile. */
  lemma {:induction false} TickPollsExactlyDue(p: Poller, list: seq<Item>, now: int, takes: seq<nat>, key: Key)
    requires |p.queue| + |list| <= 2 * p.workers
    ensures
      var p' := Next(p, Tick(list, now, takes));
      var wanted := exists i :: i in list && i.tradeMode && i.introspection && i.key == key;
      && Polls(p', key) == Polls(p, key) + (if wanted && Due(p, key, now) then 1 else 0)
      && (key in p'.state <==> wanted)
      && (wanted ==>
            && p'.state[key].nextPollAt == (if key in p.state then p.state[key].nextPollAt else now)
            && p'.state[key].consecutiveFailures == (if key in p.state then p.state[key].consecutiveFailures else 0)
            && (p'.state[key].inFlight <==> InFlight(p, key) || Due(p, key, now)))
  {
    assert list[..|list|] == list;
    VisitAllWithRoom(p, list, now, takes, |list|, key);
    CleanupPolls(VisitAll(p, list, now, takes, |list|), Seen(list), key);
    if i :| i in list && i.tradeMode && i.introspection && i.key == key { assert Wanted(i); }
  }

  /** Over every run with representable intervals: a wanted bot without a poll is enqueued by a tick with room exactly
      when the deadline its history gives it has come, or it is new to the poller. */
  lemma {:induction false} DueBotIsPolled(
      workers: nat, events: seq<Event>, list: seq<Item>, now: int, takes: seq<nat>, key: Key)
    requires forall i :: 0 <= i < |events| && events[i].Backoff? ==> 0 < events[i].interval <= MAX_INT64 / 16
    requires |Run(workers, events).queue| + |list| <= 2 * workers
    requires exists i :: i in list && i.tradeMode && i.introspection && i.key == key
    requires !InFlight(Run(workers, events), key)
    ensures
      var p, p' := Run(workers, events), Run(workers, events + [Tick(list, now, takes)]);
      && Polls(p', key) == Polls(p, key) + (if InFlight(p', key) then 1 else 0)
      && (InFlight(p', key) <==> key !in p.state || DueAt(p.marks, key) <= now)
  {
    assert (events + [Tick(list, now, takes)])[..|events + [Tick(list, now, takes)]| - 1] == events;
    RunKeepsInv(workers, events);
    BackoffIsHonoured(workers, events);
    TickPollsExactlyDue(Run(workers, events), list, now, takes, key);
  }

  /** What a poll's outcome leaves behind: nothing for a bot forgotten meanwhile; otherwise no failures and one interval
      after a success, one failure more and the capped doubling after a failure. */
  lemma {:induction false} OutcomeIsRemembered(p: Poller, key: Key, reachable: bool, interval: int, now: int)
    requires Poll(key, false) in p.running && 0 < interval <= MAX_INT64 / 16
    ensures
      var p' := Next(p, Backoff(key, reachable, interval, now));
      && p'.state.Keys == p.state.Keys && (forall k :: k in p.state && k != key ==> p'.state[k] == p.state[k])
      && (key in p.state && reachable ==> p'.state[key] == p.state[key].(consecutiveFailures := 0,
                                                                        nextPollAt := now + interval))
      && (key in p.state && !reachable ==>
            var n := p.state[key].consecutiveFailures + 1;
            p'.state[key] == p.state[key].(
              consecutiveFailures := n,
              nextPollAt := now + interval * (if n == 1 then 2 else if n == 2 then 4 else if n == 3 then 8 else 10)))
      && p'.marks == p.marks + if key in p.state then [Applied(key, reachable, interval, now)] else []
  {
    if key in p.state && !reachable {
      var n := p.state[key].consecutiveFailures + 1;
      DelayInRange(interval, n);
      assert Pow2(1) == 2 && Pow2(2) == 4 && Pow2(3) == 8;
      if n >= 4 { Pow2AtLeast16(n); }
    }
  }

  /** What the visits of a pass write into the history. */
  ghost predicate Noted(p: Poller, p': Poller, now: int, seen: set<Key>) {
    && p.marks <= p'.marks
    && forall m :: m in p'.marks[|p.marks|..] <==>
         || (m.Tracked? && m.now == now && m.key in seen && m.key !in p.state)
         || (m.Enqueued? && m.now == now && m.key in seen && Due(p, m.key, now))
  }

  lemma {:induction false} VisitNotes(p: Poller, key: Key, now: int)
    requires |p.queue| < 2 * p.workers
    ensures Noted(p, Visit(p, key, now), now, {key})
  {
    var a := if key in p.state then [] else [Tracked(key, now)];
    var b := if Due(p, key, now) then [Enqueued(key, now)] else [];
    assert Visit(p, key, now).marks == p.marks + a + b;
    assert (p.marks + a + b)[|p.marks|..] == a + b;
  }

  lemma {:induction false} NotedThen(p: Poller, q: Poller, r: Poller, now: int, seen: set<Key>, key: Key)
    requires Noted(p, q, now, seen) && Noted(q, r, now, {key}) && Visited(p, q, key, now, key in seen)
    ensures Noted(p, r, now, seen + {key})
  {
    assert r.marks[|p.marks|..] == q.marks[|p.marks|..] + r.marks[|q.marks|..];
    forall m ensures m in r.marks[|p.marks|..] <==>
                       || (m.Tracked? && m.now == now && m.key in seen + {key} && m.key !in p.state)
                       || (m.Enqueued? && m.now == now && m.key in seen + {key} && Due(p, m.key, now))
    {
      assert m in r.marks[|p.marks|..] <==> m in q.marks[|p.marks|..] || m in r.marks[|q.marks|..];
    }
  }

  lemma {:induction false} VisitAllNotes(p: Poller, list: seq<Item>, now: int, takes: seq<nat>, n: nat)
    requires n <= |list| && |p.queue| + |list| <= 2 * p.workers
    ensures Noted(p, VisitAll(p, list, now, takes, n), now, Seen(list[..n]))
  {
    if n > 0 {
      VisitAllNotes(p, list, now, takes, n - 1);
      var before, key := VisitAll(p, list, now, takes, n - 1), list[n - 1].key;
      VisitAllWithRoom(p, list, now, takes, n - 1, key);
      SeenStep(list, n - 1);
      if n <= |takes| {
        ReceivesShorten(before, takes[n - 1]);
        ReceivesKeepMemory(before, takes[n - 1]);
      }
      var ready := if n <= |takes| then Receives(before, takes[n - 1]) else before;
      if Wanted(list[n - 1]) {
        VisitNotes(ready, key, now);
        if n <= |takes| { ReceivesPolls(before, takes[n - 1], key); }
        NotedThen(p, ready, Visit(ready, key, now), now, Seen(list[..n - 1]), key);
      }
    }
  }

  /** The history is right: a tick with room notes as tracked exactly the wanted bots that were not, as enqueued exactly
      those that were due, and as forgotten, last, exactly the bots it had and does not see. */
  lemma {:induction false} TickIsNoted(p: Poller, list: seq<Item>, now: int, takes: seq<nat>)
    requires |p.queue| + |list| <= 2 * p.workers
    ensures
      var p', seen := Next(p, Tick(list, now, takes)), Seen(list);
      var n := |p'.marks| - 1;
      && n >= |p.marks| && p.marks <= p'.marks[..n]
      && (forall m :: m in p'.marks[..n][|p.marks|..] <==>
            || (m.Tracked? && m.now == now && m.key in seen && m.key !in p.state)
            || (m.Enqueued? && m.now == now && m.key in seen && Due(p, m.key, now)))
      && p'.marks[n] == Forgotten(p.state.Keys - seen)
  {
    var q := VisitAll(p, list, now, takes, |list|);
    assert list[..|list|] == list;
    VisitAllNotes(p, list, now, takes, |list|);
    assert Cleanup(q, Seen(list)).marks[..|q.marks|] == q.marks;
    forall key ensures key in q.state.Keys - Seen(list) <==> key in p.state.Keys - Seen(list) {
      VisitAllWithRoom(p, list, now, takes, |list|, key);
    }
    assert q.state.Keys - Seen(list) == p.state.Keys - Seen(list);
  }

  /** Receives take the oldest keys of the queue, in order, as long as there are keys and idle workers. */
  lemma {:induction false} TakesStartOldest(p: Poller, n: nat)
    requires n <= |p.queue| && |p.running| + n <= p.workers
    ensures Receives(p, n).queue == p.queue[n..] && |Receives(p, n).running| == |p.running| + n
    ensures forall key :: Receives(p, n).running[Poll(key, false)]
                       == p.running[Poll(key, false)] + multiset(p.queue[..n])[key]
    decreases n
  {
    if n > 0 {
      var p1 := Receive(p);
      TakesStartOldest(p1, n - 1);
      assert p.queue[..n] == [p.queue[0]] + p1.queue[..n - 1];
    } else {
      assert p.queue[0..] == p.queue;
    }
  }
}
