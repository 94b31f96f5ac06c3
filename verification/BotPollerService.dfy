/** The poller as an object: the locked map, the channel and the workers, with the loops of scheduleDue and the
    critical sections of updateBackoff and pollOne, each shown to be one step of BotPoller. */
module BotPollerService {
  import opened Wrappers
  import opened BotPoller

  /** A trade-mode bot with introspection off whose status does not say so yet. */
  predicate Unmarked(i: Item) {
    i.tradeMode && !i.introspection && !i.marked
  }

  class Service {
    const workers: nat
    var state: map<Key, PollState>
    var queue: seq<Key>
    var running: multiset<Poll>
    ghost var marks: seq<Mark>

    ghost function View(): Poller reads this {
      Poller(workers, state, queue, running, marks)
    }

    constructor (workers: nat)
      ensures View() == Run(workers, [])
    {
      this.workers := workers;
      state, queue, running, marks := map[], [], multiset{}, [];
    }

    /** A worker receives from the channel if it is idle and the channel is not empty. */
    method Receive()
      modifies this
      ensures View() == BotPoller.Receive(old(View()))
    {
      if queue != [] && |running| < workers {
        running := running + multiset{Poll(queue[0], false)};
        queue := queue[1..];
      }
    }

    method ReceiveMany(n: nat)
      modifies this
      ensures View() == Receives(old(View()), n)
    {
      var i: nat := n;
      while i > 0
        invariant i <= n
        invariant Receives(View(), i) == Receives(old(View()), n)
      {
        Receive();
        i := i - 1;
      }
    }

    /** One pass over the list under the lock, with workers receiving meanwhile, then the sweep over the map. Returns
        the bots whose condition is to be marked after the lock is released. */
    method ScheduleDue(list: seq<Item>, now: int, takes: seq<nat>) returns (off: seq<Key>)
      modifies this
      ensures View() == Next(old(View()), Tick(list, now, takes))
      ensures forall k :: k in off <==> exists i :: i in list && i.key == k && Unmarked(i)
    {
      var seen: set<Key> := {};
      off := [];
      var i := 0;
      while i < |list|
        invariant i <= |list|
        invariant View() == VisitAll(old(View()), list, now, takes, i)
        invariant seen == Seen(list[..i])
        invariant forall k :: k in off <==> exists x :: x in list[..i] && x.key == k && Unmarked(x)
      {
        var item := list[i];
        assert list[..i + 1] == list[..i] + [item];
        assert Seen(list[..i + 1]) == Seen(list[..i]) + (if Wanted(item) then {item.key} else {});
        if i < |takes| { ReceiveMany(takes[i]); }
        if item.tradeMode {
          if !item.introspection {
            if !item.marked { off := off + [item.key]; }
          } else {
            seen := seen + {item.key};
            VisitOne(item.key, now);
          }
        }
        i := i + 1;
      }
      assert list[..|list|] == list;
      Sweep(seen);
    }

    method VisitOne(key: Key, now: int)
      modifies this
      ensures View() == Visit(old(View()), key, now)
    {
      if key !in state {
        state := state[key := PollState(now, 0, false)];
        marks := marks + [Tracked(key, now)];
      }
      var st := state[key];
      if st.inFlight || now < st.nextPollAt { return; }
      state := state[key := st.(inFlight := true)];
      if |queue| < 2 * workers {
        queue := queue + [key];
        marks := marks + [Enqueued(key, now)];
      } else {
        state := state[key := st.(inFlight := false)];
      }
    }

    /** Deletes every tracked bot that was not seen, in the map's own (arbitrary) order. */
    method Sweep(seen: set<Key>)
      modifies this
      ensures View() == Cleanup(old(View()), seen)
    {
      var todo := state.Keys;
      while todo != {}
        invariant todo <= old(state).Keys
        invariant state == map k | k in old(state) && (k in seen || k in todo) :: old(state)[k]
        invariant queue == old(queue) && running == old(running) && marks == old(marks)
        decreases |todo|
      {
        var key :| key in todo;
        todo := todo - {key};
        if key !in seen {
          state := state - {key};
        }
      }
      marks := marks + [Forgotten(old(state).Keys - seen)];
    }

    /** A worker reports a poll's outcome, unless the bot was forgotten meanwhile. */
    method UpdateBackoff(key: Key, reachable: bool, interval: int, now: int)
      requires Poll(key, false) in running
      modifies this
      ensures View() == Next(old(View()), Backoff(key, reachable, interval, now))
    {
      running := running - multiset{Poll(key, false)} + multiset{Poll(key, true)};
      if key !in state { return; }
      var st := state[key];
      marks := marks + [Applied(key, reachable, interval, now)];
      if reachable {
        state := state[key := st.(consecutiveFailures := 0, nextPollAt := now + interval)];
        return;
      }
      var failures := st.consecutiveFailures + 1;
      var shift := failures;
      if shift > 4 { shift := 4; }
      var backoff := Wrap64(interval * Pow2(shift));
      var maxBackoff := Wrap64(interval * 10);
      if backoff > maxBackoff { backoff := maxBackoff; }
      assert backoff == Delay(interval, failures);
      state := state[key := st.(consecutiveFailures := failures, nextPollAt := now + backoff)];
    }

    /** The deferred release at the end of pollOne, reached on every path out of it. */
    method Release(poll: Poll)
      requires poll in running
      modifies this
      ensures View() == Next(old(View()), Finish(poll))
    {
      running := running - multiset{poll};
      if poll.key in state {
        state := state[poll.key := state[poll.key].(inFlight := false)];
      }
    }
  }
}
