/** The results sidecar waiting for the main container to exit: it polls its own Pod, looks at once when SIGTERM
    arrives, and gives up after a day. */
module SidecarWait {
  import opened Wrappers

  const POLL_INTERVAL: nat := 2         // seconds
  const MAX_WAIT: nat := 86400
  const MAX_TICKS: nat := MAX_WAIT / POLL_INTERVAL + 1

  datatype ContainerStatus = ContainerStatus(name: string, terminated: bool)

  /** What the outside does: the n-th read of the Pod, whether a signal is waiting at the n-th select, and how much
      longer than it has to the n-th step takes. */
  datatype Script = Script(
    read: nat -> Option<seq<ContainerStatus>>, signalled: nat -> bool, delay: nat -> nat)

  datatype Outcome = Exited | PodUnreadable | TimedOut

  /** The n-th read shows the main container terminated. */
  predicate Shows(s: Script, main: string, n: nat) {
    s.read(n).Some? && exists c :: c in s.read(n).value && c.name == main && c.terminated
  }

  /** mainContainerExited, the n-th time it is called. */
  method MainContainerExited(s: Script, main: string, n: nat) returns (exited: Option<bool>)
    ensures exited.None? <==> s.read(n).None?
    ensures exited == Some(true) <==> Shows(s, main, n)
  {
    var pod := s.read(n);
    if pod.None? { return None; }
    var i := 0;
    while i < |pod.value|
      invariant i <= |pod.value|
      invariant forall k :: 0 <= k < i ==> !(pod.value[k].name == main && pod.value[k].terminated)
    {
      if pod.value[i].name == main && pod.value[i].terminated {
        assert pod.value[i] in pod.value;
        return Some(true);
      }
      i := i + 1;
    }
    exited := Some(false);
  }

  /** How a wait may end after so many looks and so much time: the last look decides, none before it failed or showed
      an exit, and only a wait longer than a day times out. */
  ghost predicate EndsWith(s: Script, main: string, looks: nat, r: Outcome, waited: int) {
    && looks > 0
    && (forall k :: 0 <= k < looks - 1 ==> s.read(k).Some? && !Shows(s, main, k))
    && (r == Exited <==> Shows(s, main, looks - 1))
    && (r == PodUnreadable <==> s.read(looks - 1).None?)
    && (r == TimedOut ==> waited > MAX_WAIT)
  }

  /** waitForMainContainerExit, with what it did besides its outcome. It returns in every case, nil (Exited) only on a
      look that shows the container terminated. signalledAt: after how many ticks a signal was acted on, if one was.
      Up to then looks and ticks alternate; the signal has a look of its own with no tick before it, so an exit that
      look shows ends the wait there and then; and from then on looks and ticks alternate again, so no second signal
      was acted on. A signal is acted on at the first select that finds one waiting, never put off. */
  method WaitForMainContainerExit(s: Script, main: string, start: int)
    returns (r: Outcome, looks: nat, ticks: nat, signalledAt: Option<nat>, end: int)
    ensures EndsWith(s, main, looks, r, end - start)
    ensures signalledAt == None ==> looks == ticks + 1
    ensures signalledAt.Some? ==> looks == ticks + 3 || (looks == ticks + 2 && signalledAt.value == ticks)
    ensures signalledAt.Some? && Shows(s, main, signalledAt.value + 1) ==> r == Exited && ticks == signalledAt.value
    ensures forall k :: 0 <= k < (if signalledAt.Some? then signalledAt.value else ticks) ==> !s.signalled(k)
    ensures signalledAt.Some? ==> signalledAt.value <= ticks && s.signalled(signalledAt.value)
    ensures (ticks - 1) * POLL_INTERVAL <= MAX_WAIT
    ensures end - start >= ticks * POLL_INTERVAL
  {
    var now, n: nat, selects: nat, sigPending := start, 0, 0, true;
    var deadline := start + MAX_WAIT;
    ticks, signalledAt := 0, None;
    while true
      invariant forall k :: 0 <= k < n ==> s.read(k).Some? && !Shows(s, main, k)
      invariant sigPending <==> signalledAt == None
      invariant n == if sigPending then ticks else ticks + 2
      invariant signalledAt.Some? ==> signalledAt.value <= ticks && s.signalled(signalledAt.value)
      invariant forall k :: 0 <= k < (if sigPending then ticks else signalledAt.value) ==> !s.signalled(k)
      invariant selects == if sigPending then ticks else ticks + 1
      invariant ticks * POLL_INTERVAL <= now - start && ticks <= MAX_TICKS
      decreases MAX_TICKS - ticks, sigPending
    {
      var exited := MainContainerExited(s, main, n);
      n := n + 1;
      if exited.None? { return PodUnreadable, n, ticks, signalledAt, now; }
      if exited.value { return Exited, n, ticks, signalledAt, now; }
      if now > deadline { return TimedOut, n, ticks, signalledAt, now; }
      if sigPending && s.signalled(selects) {
        sigPending, signalledAt := false, Some(ticks);
        now := now + s.delay(selects);
        selects := selects + 1;
        exited := MainContainerExited(s, main, n);
        n := n + 1;
        if exited.None? { return PodUnreadable, n, ticks, signalledAt, now; }
        if exited.value { return Exited, n, ticks, signalledAt, now; }
      } else {
        now := now + POLL_INTERVAL + s.delay(selects);
        selects := selects + 1;
        ticks := ticks + 1;
      }
    }
  }
}
