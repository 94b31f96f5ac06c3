/** The optimistic status store (controllers/shared/utils.go): any number of PatchStatus calls, each reading a
    possibly stale copy, mutating it, and writing it back only if nobody committed in between. */
module PatchStatus {

  /** The stored object, reduced to what the protocol looks at. */
  datatype Object<S> = Object(resourceVersion: nat, generation: nat, observedGeneration: nat, status: S)

  /** One accepted write, as the API server orders them. */
  datatype Commit<O> = StatusWrite(caller: nat, mutate: O) | SpecWrite

  datatype Result<S> =
    | Unchanged(read: Object<S>)         // nil: the mutate changed nothing, so nothing was sent
    | Written(version: nat)              // nil: the write was accepted as this version
    | ConflictsExhausted                 // the conflict error, after the last allowed attempt
    | ReadFailed
    | WriteFailed(committed: bool)       // any other error; the write may have landed before the reply was lost

  datatype Phase<S> = Reading | Holding(copy: Object<S>) | Finished(result: Result<S>)

  /** A call in progress; mutates[i] is what its closure computes on attempt i (it may read the clock). */
  datatype Call<S, O> = Call(mutates: seq<O>, attempt: nat, phase: Phase<S>)

  datatype World<S, O> = World(history: seq<Object<S>>, log: seq<Commit<O>>, calls: map<nat, Call<S, O>>)

  datatype Reply = Accepted | ErrorBeforeCommit | ErrorAfterCommit

  datatype Event<O> =
    | Begin(id: nat, mutates: seq<O>)
    | Get(id: nat, version: nat)         // a cache may serve any version stored so far
    | GetFails(id: nat)
    | Update(id: nat, reply: Reply)
    | EditSpec                           // a client changes the spec

  function Initial<S, O>(first: Object<S>): World<S, O> {
    World([first.(resourceVersion := 0)], [], map[])
  }

  function Latest<S, O>(w: World<S, O>): Object<S>
    requires w.history != []
  {
    w.history[|w.history| - 1]
  }

  /** What the closure leaves in the caller's own copy. */
  function Mutated<S, O>(apply: (S, O) -> S, copy: Object<S>, mutate: O): Object<S> {
    copy.(status := apply(copy.status, mutate), observedGeneration := copy.generation)
  }

  /** The server's side of a status write: the status comes from the request, the rest from storage. */
  function Commits<S, O>(w: World<S, O>, id: nat, mutate: O, sent: Object<S>): World<S, O>
    requires w.history != []
  {
    w.(history := w.history + [Latest(w).(resourceVersion := |w.history|, status := sent.status,
                                           observedGeneration := sent.observedGeneration)],
       log := w.log + [StatusWrite(id, mutate)])
  }

  function Finish<S, O>(w: World<S, O>, id: nat, r: Result<S>): World<S, O>
    requires id in w.calls
  {
    w.(calls := w.calls[id := w.calls[id].(phase := Finished(r))])
  }

  ghost predicate WellFormed<S, O>(w: World<S, O>) {
    && w.history != []
    && forall id :: id in w.calls ==> w.calls[id].attempt < |w.calls[id].mutates|
  }

  ghost function Send<S, O>(apply: (S, O) -> S, w: World<S, O>, id: nat, reply: Reply): World<S, O>
    requires WellFormed(w) && id in w.calls && w.calls[id].phase.Holding?
  {
    var call := w.calls[id];
    var copy := call.phase.copy;
    var mutate := call.mutates[call.attempt];
    var next := Mutated(apply, copy, mutate);
    if next == copy then Finish(w, id, Unchanged(copy))
    else if reply == ErrorBeforeCommit then Finish(w, id, WriteFailed(false))
    else if copy.resourceVersion != Latest(w).resourceVersion then
      if call.attempt + 1 < |call.mutates|
      then w.(calls := w.calls[id := call.(attempt := call.attempt + 1, phase := Reading)])
      else Finish(w, id, ConflictsExhausted)
    else
      Finish(Commits(w, id, mutate, next), id,
             if reply == Accepted then Written(|w.history|) else WriteFailed(true))
  }

  /** One step; an event that is not possible in w leaves it unchanged. */
  ghost function Next<S, O>(apply: (S, O) -> S, w: World<S, O>, e: Event<O>): World<S, O>
    requires WellFormed(w)
  {
    match e
    case Begin(id, mutates) =>
      if id in w.calls || mutates == [] then w else w.(calls := w.calls[id := Call(mutates, 0, Reading)])
    case Get(id, version) =>
      if id in w.calls && w.calls[id].phase.Reading? && version < |w.history|
      then w.(calls := w.calls[id := w.calls[id].(phase := Holding(w.history[version]))]) else w
    case GetFails(id) =>
      if id in w.calls && w.calls[id].phase.Reading? then Finish(w, id, ReadFailed) else w
    case Update(id, reply) =>
      if id in w.calls && w.calls[id].phase.Holding? then Send(apply, w, id, reply) else w
    case EditSpec =>
      w.(history := w.history + [Latest(w).(resourceVersion := |w.history|, generation := Latest(w).generation + 1)],
         log := w.log + [SpecWrite])
  }

  ghost function Run<S, O>(apply: (S, O) -> S, first: Object<S>, events: seq<Event<O>>): (w: World<S, O>)
    ensures WellFormed(w)
  {
    if events == [] then Initial(first)
    else Next(apply, Run(apply, first, events[..|events| - 1]), events[|events| - 1])
  }

  // ---------- The sequential reading of a log ----------

  /** The commit applied to the object it found, with no caller, copy or version check involved. */
  function Replay1<S, O>(apply: (S, O) -> S, o: Object<S>, c: Commit<O>): Object<S> {
    match c
    case StatusWrite(_, mutate) => Mutated(apply, o, mutate).(resourceVersion := o.resourceVersion + 1)
    case SpecWrite => o.(resourceVersion := o.resourceVersion + 1, generation := o.generation + 1)
  }

  function Fold<S, O>(apply: (S, O) -> S, status: S, mutates: seq<O>): S {
    if mutates == [] then status
    else apply(Fold(apply, status, mutates[..|mutates| - 1]), mutates[|mutates| - 1])
  }

  function Mutates<O>(log: seq<Commit<O>>): seq<O> {
    if log == [] then []
    else Mutates(log[..|log| - 1]) + (if log[|log| - 1].StatusWrite? then [log[|log| - 1].mutate] else [])
  }

  function WritesBy<O>(log: seq<Commit<O>>, id: nat): nat {
    if log == [] then 0
    else (WritesBy(log[..|log| - 1], id)
          + if log[|log| - 1].StatusWrite? && log[|log| - 1].caller == id then 1 else 0)
  }

  // ---------- Invariant ----------

  ghost predicate Sequential<S, O>(apply: (S, O) -> S, history: seq<Object<S>>, log: seq<Commit<O>>) {
    && |history| == |log| + 1
    && (forall i :: 0 <= i < |history| ==> history[i].resourceVersion == i)
    && (forall i :: 0 <= i < |log| ==> history[i + 1] == Replay1(apply, history[i], log[i]))
  }

  ghost predicate Stored<S>(history: seq<Object<S>>, o: Object<S>) {
    o.resourceVersion < |history| && history[o.resourceVersion] == o
  }

  ghost predicate Committed<S, O>(call: Call<S, O>) {
    call.phase.Finished? && (call.phase.result.Written? || call.phase.result == WriteFailed(true))
  }

  ghost predicate CallOk<S, O>(apply: (S, O) -> S, w: World<S, O>, id: nat)
    requires id in w.calls && w.calls[id].attempt < |w.calls[id].mutates|
  {
    var call := w.calls[id];
    var mutate := call.mutates[call.attempt];
    && WritesBy(w.log, id) == (if Committed(call) then 1 else 0)
    && (call.phase.Holding? ==> Stored(w.history, call.phase.copy))
    && (call.phase.Finished? && call.phase.result.Unchanged? ==>
          Stored(w.history, call.phase.result.read)
          && Mutated(apply, call.phase.result.read, mutate) == call.phase.result.read)
    && (call.phase.Finished? && call.phase.result.Written? ==>
          0 < call.phase.result.version <= |w.log|
          && w.log[call.phase.result.version - 1] == StatusWrite(id, mutate))
  }

  ghost predicate Inv<S, O>(apply: (S, O) -> S, w: World<S, O>) {
    && WellFormed(w)
    && Sequential(apply, w.history, w.log)
    && (forall id :: id in w.calls ==> CallOk(apply, w, id))
    && (forall id :: id !in w.calls ==> WritesBy(w.log, id) == 0)
  }

  lemma {:induction false} WritesByAppend<O>(log: seq<Commit<O>>, c: Commit<O>, id: nat)
    ensures WritesBy(log + [c], id) == WritesBy(log, id) + (if c.StatusWrite? && c.caller == id then 1 else 0)
  {
    assert (log + [c])[..|log|] == log;
  }

  lemma {:induction false} CommitKeepsInv<S, O>(apply: (S, O) -> S, w: World<S, O>, c: Commit<O>, o: Object<S>)
    requires Inv(apply, w) && o == Replay1(apply, Latest(w), c)
    ensures Sequential(apply, w.history + [o], w.log + [c])
    ensures forall x :: Stored(w.history, x) ==> Stored(w.history + [o], x)
    ensures forall id :: WritesBy(w.log + [c], id)
                      == WritesBy(w.log, id) + (if c.StatusWrite? && c.caller == id then 1 else 0)
  {
    forall id ensures WritesBy(w.log + [c], id)
                   == WritesBy(w.log, id) + (if c.StatusWrite? && c.caller == id then 1 else 0)
    {
      WritesByAppend(w.log, c, id);
    }
  }

  /** Only call id moved, and nothing was committed. */
  lemma {:induction false} LocalStepKeepsInv<S, O>(apply: (S, O) -> S, w: World<S, O>, id: nat, call: Call<S, O>)
    requires Inv(apply, w) && call.attempt < |call.mutates|
    requires CallOk(apply, w.(calls := w.calls[id := call]), id)
    ensures Inv(apply, w.(calls := w.calls[id := call]))
  {
    var w' := w.(calls := w.calls[id := call]);
    forall k | k in w'.calls ensures CallOk(apply, w', k) {
      if k != id { assert CallOk(apply, w, k); }
    }
  }

  /** A commit by call id (or by a spec edit, when id is not in the table). */
  lemma {:induction false} CommitStepKeepsInv<S, O>(
    apply: (S, O) -> S, w: World<S, O>, c: Commit<O>, o: Object<S>, calls: map<nat, Call<S, O>>)
    requires Inv(apply, w) && o == Replay1(apply, Latest(w), c)
    requires calls.Keys == w.calls.Keys
    requires forall k :: k in calls ==> calls[k].attempt < |calls[k].mutates|
    requires forall k :: k in calls && !(c.StatusWrite? && c.caller == k) ==> calls[k] == w.calls[k]
    requires c.StatusWrite? ==> c.caller in calls && !Committed(w.calls[c.caller]) && Committed(calls[c.caller])
    requires c.StatusWrite? && calls[c.caller].phase.result.Written? ==>
               calls[c.caller].phase.result.version == |w.log| + 1
               && c.mutate == calls[c.caller].mutates[calls[c.caller].attempt]
    ensures Inv(apply, World(w.history + [o], w.log + [c], calls))
  {
    var w' := World(w.history + [o], w.log + [c], calls);
    CommitKeepsInv(apply, w, c, o);
    forall k | k in calls ensures CallOk(apply, w', k) {
      assert CallOk(apply, w, k);
    }
  }

  lemma {:induction false} NextKeepsInv<S, O>(apply: (S, O) -> S, w: World<S, O>, e: Event<O>)
    requires Inv(apply, w)
    ensures Inv(apply, Next(apply, w, e))
  {
    var w' := Next(apply, w, e);
    match e {
      case EditSpec =>
        CommitStepKeepsInv(apply, w, SpecWrite, w'.history[|w.history|], w.calls);
      case Begin(id, mutates) =>
        if w' != w { LocalStepKeepsInv(apply, w, id, w'.calls[id]); }
      case Get(id, version) =>
        if w' != w {
          assert CallOk(apply, w, id);
          LocalStepKeepsInv(apply, w, id, w'.calls[id]);
        }
      case GetFails(id) =>
        if w' != w {
          assert CallOk(apply, w, id);
          LocalStepKeepsInv(apply, w, id, w'.calls[id]);
        }
      case Update(id, reply) =>
        if id in w.calls && w.calls[id].phase.Holding? { SendKeepsInv(apply, w, id, reply); }
    }
  }

  lemma {:induction false} SendKeepsInv<S, O>(apply: (S, O) -> S, w: World<S, O>, id: nat, reply: Reply)
    requires Inv(apply, w) && id in w.calls && w.calls[id].phase.Holding?
    ensures Inv(apply, Send(apply, w, id, reply))
  {
    var w' := Send(apply, w, id, reply);
    var call := w.calls[id];
    var mutate := call.mutates[call.attempt];
    var next := Mutated(apply, call.phase.copy, mutate);
    assert CallOk(apply, w, id);
    if next == call.phase.copy || reply == ErrorBeforeCommit
       || call.phase.copy.resourceVersion != Latest(w).resourceVersion {
      assert w' == w.(calls := w.calls[id := w'.calls[id]]);
      LocalStepKeepsInv(apply, w, id, w'.calls[id]);
    } else {
      assert call.phase.copy == Latest(w);
      CommitStepKeepsInv(apply, w, StatusWrite(id, mutate), w'.history[|w.history|], w'.calls);
    }
  }

  lemma {:induction false} RunKeepsInv<S, O>(apply: (S, O) -> S, first: Object<S>, events: seq<Event<O>>)
    ensures Inv(apply, Run(apply, first, events))
  {
    if events != [] {
      RunKeepsInv(apply, first, events[..|events| - 1]);
      NextKeepsInv(apply, Run(apply, first, events[..|events| - 1]), events[|events| - 1]);
    }
  }

  lemma {:induction false} SequentialIsFold<S, O>(apply: (S, O) -> S, history: seq<Object<S>>, log: seq<Commit<O>>)
    requires Sequential(apply, history, log)
    ensures history[|log|].status == Fold(apply, history[0].status, Mutates(log))
  {
    if log != [] {
      var n := |log| - 1;
      assert log[..n] == log[..|log| - 1] && history[..|log|][n] == history[n];
      forall i | 0 <= i < n ensures history[..|log|][i + 1] == Replay1(apply, history[..|log|][i], log[..n][i]) {
        assert history[i + 1] == Replay1(apply, history[i], log[i]);
      }
      SequentialIsFold(apply, history[..|log|], log[..n]);
      assert history[n + 1] == Replay1(apply, history[n], log[n]);
      var ms := Mutates(log);
      if log[n].StatusWrite? {
        assert ms[..|ms| - 1] == Mutates(log[..n]);
      } else {
        assert ms == Mutates(log[..n]);
      }
    }
  }

  lemma {:induction false} HistoryGrows<S, O>(apply: (S, O) -> S, w: World<S, O>, e: Event<O>)
    requires WellFormed(w)
    ensures w.history <= Next(apply, w, e).history
  {
    match e
    case Update(id, reply) =>
      if id in w.calls && w.calls[id].phase.Holding? { assert w.history <= Send(apply, w, id, reply).history; }
    case _ =>
  }

  /** Over any run, every version ever stored stays exactly as it was stored. */
  lemma {:induction false} VersionsAreKept<S, O>(
    apply: (S, O) -> S, first: Object<S>, events: seq<Event<O>>, more: seq<Event<O>>)
    ensures Run(apply, first, events).history <= Run(apply, first, events + more).history
  {
    if more == [] {
      assert events + more == events;
    } else {
      var n := |more| - 1;
      assert (events + more)[..|events + more| - 1] == events + more[..n];
      VersionsAreKept(apply, first, events, more[..n]);
      HistoryGrows(apply, Run(apply, first, events + more[..n]), more[n]);
    }
  }

  lemma {:induction false} FirstVersionKept<S, O>(apply: (S, O) -> S, first: Object<S>, events: seq<Event<O>>)
    ensures Run(apply, first, events).history[0] == first.(resourceVersion := 0)
  {
    if events != [] {
      FirstVersionKept(apply, first, events[..|events| - 1]);
      HistoryGrows(apply, Run(apply, first, events[..|events| - 1]), events[|events| - 1]);
    }
  }

  // ---------- Main results ----------

  /** No lost update: in every interleaving of calls, stale reads, lost replies and spec edits, the stored status is
      the fold, in commit order, of exactly the mutates that were written. */
  lemma {:induction false} NoLostUpdate<S, O>(apply: (S, O) -> S, first: Object<S>, events: seq<Event<O>>)
    ensures var w := Run(apply, first, events);
            Latest(w).status == Fold(apply, first.status, Mutates(w.log))
  {
    var w := Run(apply, first, events);
    RunKeepsInv(apply, first, events);
    FirstVersionKept(apply, first, events);
    SequentialIsFold(apply, w.history, w.log);
  }

  /** What a caller may conclude from the result of call id. */
  ghost predicate Truthful<S, O>(apply: (S, O) -> S, w: World<S, O>, id: nat)
    requires id in w.calls
  {
    var call := w.calls[id];
    call.phase.Finished? ==>
      match call.phase.result
      case Unchanged(read) =>
        && WritesBy(w.log, id) == 0
        && read in w.history
        && exists m :: m in call.mutates && Mutated(apply, read, m) == read
      case Written(v) =>
        && WritesBy(w.log, id) == 1
        && 0 < v < |w.history|
        && exists m :: m in call.mutates && w.history[v] == Replay1(apply, w.history[v - 1], StatusWrite(id, m))
      case ConflictsExhausted => WritesBy(w.log, id) == 0
      case ReadFailed => WritesBy(w.log, id) == 0
      case WriteFailed(committed) => WritesBy(w.log, id) == if committed then 1 else 0
  }

  lemma {:induction false} InvIsTruthful<S, O>(apply: (S, O) -> S, w: World<S, O>, id: nat)
    requires Inv(apply, w) && id in w.calls
    ensures Truthful(apply, w, id)
  {
    var call := w.calls[id];
    assert CallOk(apply, w, id);
    var m := call.mutates[call.attempt];
    assert m in call.mutates;
    if call.phase.Finished? && call.phase.result.Written? {
      var v := call.phase.result.version;
      assert w.history[v - 1 + 1] == Replay1(apply, w.history[v - 1], w.log[v - 1]);
    }
  }

  /** In every interleaving every result tells the truth: a nil return means the mutate was committed exactly once, on
      top of everything committed before, or was a no-op on a version that was really stored; a conflict or read error
      means it was never committed. */
  lemma {:induction false} ResultTellsTheTruth<S, O>(
    apply: (S, O) -> S, first: Object<S>, events: seq<Event<O>>, id: nat)
    requires id in Run(apply, first, events).calls
    ensures Truthful(apply, Run(apply, first, events), id)
  {
    RunKeepsInv(apply, first, events);
    InvIsTruthful(apply, Run(apply, first, events), id);
  }

  // ---------- A call gets through ----------

  lemma {:induction false} RunStep<S, O>(apply: (S, O) -> S, first: Object<S>, events: seq<Event<O>>, e: Event<O>)
    ensures Run(apply, first, events + [e]) == Next(apply, Run(apply, first, events), e)
  {
    assert (events + [e])[..|events + [e]| - 1] == events;
  }

  /** In every run: a call that is about to send what it made of the copy it holds sends nothing exactly when its mutate
      leaves that copy as it is. Otherwise an accepted request is committed, as the next version and on top of the
      latest, exactly when the copy is the latest version; from an older copy the call goes back to reading, or
      reports the conflict exactly when this was its last attempt. */
  lemma {:induction false} AcceptedSendExactly<S, O>(
    apply: (S, O) -> S, first: Object<S>, events: seq<Event<O>>, id: nat)
    requires var w := Run(apply, first, events); id in w.calls && w.calls[id].phase.Holding?
    ensures
      var w, w' := Run(apply, first, events), Run(apply, first, events + [Update(id, Accepted)]);
      var call, n := w.calls[id], |w.history|;
      var copy, mutate := call.phase.copy, call.mutates[call.attempt];
      var changes := apply(copy.status, mutate) != copy.status || copy.observedGeneration != copy.generation;
      && id in w'.calls
      && (!changes <==> w'.calls[id].phase == Finished(Unchanged(copy)))
      && (changes && copy == Latest(w) <==> w'.calls[id].phase == Finished(Written(n)))
      && (w'.calls[id].phase == Finished(Written(n)) ==>
            w'.history == w.history + [copy.(resourceVersion := n, status := apply(copy.status, mutate),
                                             observedGeneration := copy.generation)])
      && (w'.calls[id].phase != Finished(Written(n)) ==> w'.history == w.history)
      && (changes && copy != Latest(w) ==>
            if call.attempt + 1 < |call.mutates| then w'.calls[id] == Call(call.mutates, call.attempt + 1, Reading)
            else w'.calls[id].phase == Finished(ConflictsExhausted))
  {
    var w := Run(apply, first, events);
    RunStep(apply, first, events, Update(id, Accepted));
    RunKeepsInv(apply, first, events);
    assert CallOk(apply, w, id);
    assert Stored(w.history, w.calls[id].phase.copy);
  }

  lemma {:induction false} SendOfLatest<S, O>(apply: (S, O) -> S, w: World<S, O>, id: nat)
    requires WellFormed(w) && id in w.calls && w.calls[id].phase == Holding(Latest(w))
    ensures
      var w', call := Next(apply, w, Update(id, Accepted)), w.calls[id];
      && w'.history != [] && id in w'.calls && w'.calls[id].phase.Finished?
      && (w'.calls[id].phase.result.Written? || w'.calls[id].phase.result.Unchanged?)
      && Latest(w').status == apply(Latest(w).status, call.mutates[call.attempt])
      && Latest(w').observedGeneration == Latest(w).generation
  {}

  /** So from any state, reached by whatever run, a call that still has to read succeeds if it reads the latest version
      and nobody comes between: its mutate is what the stored status went through, or was a no-op on it. */
  lemma {:induction false} UndisturbedCallSucceeds<S, O>(apply: (S, O) -> S, w: World<S, O>, id: nat)
    requires WellFormed(w) && id in w.calls && w.calls[id].phase.Reading?
    ensures
      var held := Next(apply, w, Get(id, |w.history| - 1));
      && WellFormed(held)
      && var w' := Next(apply, held, Update(id, Accepted));
      && w'.history != []
      && Latest(w').status == apply(Latest(w).status, w.calls[id].mutates[w.calls[id].attempt])
      && Latest(w').observedGeneration == Latest(w).generation
      && id in w'.calls && w'.calls[id].phase.Finished?
      && (w'.calls[id].phase.result.Written? || w'.calls[id].phase.result.Unchanged?)
  {
    SendOfLatest(apply, Next(apply, w, Get(id, |w.history| - 1)), id);
  }

  /** And a new call starts by reading. */
  lemma {:induction false} BegunCallReads<S, O>(
    apply: (S, O) -> S, first: Object<S>, events: seq<Event<O>>, id: nat, mutates: seq<O>)
    requires id !in Run(apply, first, events).calls && mutates != []
    ensures var w' := Run(apply, first, events + [Begin(id, mutates)]);
            id in w'.calls && w'.calls[id] == Call(mutates, 0, Reading)
  {
    RunStep(apply, first, events, Begin(id, mutates));
  }

  /** observedGeneration never runs ahead of the generation and never goes back, over the whole stored history. */
  lemma {:induction false} ObservedGenerationIsSafe<S, O>(
    apply: (S, O) -> S, first: Object<S>, events: seq<Event<O>>, i: nat, j: nat)
    requires first.observedGeneration <= first.generation
    requires i <= j < |Run(apply, first, events).history|
    ensures var h := Run(apply, first, events).history;
            h[i].observedGeneration <= h[j].observedGeneration <= h[j].generation
  {
    var w := Run(apply, first, events);
    RunKeepsInv(apply, first, events);
    FirstVersionKept(apply, first, events);
    for k := 0 to j
      invariant forall a :: 0 <= a <= k ==> w.history[a].observedGeneration <= w.history[k].observedGeneration
      invariant w.history[k].observedGeneration <= w.history[k].generation
    {
      assert w.history[k + 1] == Replay1(apply, w.history[k], w.log[k]);
    }
  }
}
