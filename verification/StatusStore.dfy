/** PatchStatus itself: the read-mutate-compare-write loop of controllers/shared/utils.go, run against a store that
    other writers keep changing between any two of its API calls. */
module StatusStore {
  import opened PatchStatus

  /** What happens around one attempt: commits by others before the read and between read and write, how stale the
      read is, and how the write is answered. */
  datatype Attempt<O> = Attempt(
    before: seq<Commit<O>>, readFails: bool, lag: nat, between: seq<Commit<O>>, reply: Reply)

  /** The attempt goes through: the read shows the latest version, nobody comes between read and write, and the write is
      accepted. */
  predicate Quiet<O>(a: Attempt<O>) {
    !a.readFails && a.lag == 0 && a.between == [] && a.reply == Accepted
  }

  /** Every request of the attempt is answered, be it with a conflict. */
  predicate Answered<O>(a: Attempt<O>) {
    !a.readFails && (a.reply == Accepted || (a.reply == ErrorAfterCommit && a.between != []))
  }

  /** How a request ends, sent from an older copy or not. */
  predicate Sent<S, O>(a: Attempt<O>, older: bool, next: nat, r: Result<S>) {
    && (r == WriteFailed(false) <==> a.reply == ErrorBeforeCommit)
    && (r.ConflictsExhausted? <==> a.reply != ErrorBeforeCommit && (older || a.between != []))
    && (r == Written(next) <==> a.reply == Accepted && !older && a.between == [])
    && (r == WriteFailed(true) <==> a.reply == ErrorAfterCommit && !older && a.between == [])
  }

  /** The version an attempt reads, given how many there were when it began. */
  function ReadVersion<O>(a: Attempt<O>, versions: nat): nat
    requires versions > 0
  {
    var latest := versions - 1 + |a.before|;
    if a.lag <= latest then latest - a.lag else 0
  }

  class Store<S(==), O> {
    const apply: (S, O) -> S
    var history: seq<Object<S>>
    var log: seq<Commit<O>>

    ghost predicate Valid() reads this {
      Sequential(apply, history, log)
    }

    constructor (apply: (S, O) -> S, first: Object<S>)
      ensures Valid() && log == [] && history == [first.(resourceVersion := 0)]
      ensures this.apply == apply
    {
      this.apply := apply;
      history, log := [first.(resourceVersion := 0)], [];
    }

    /** Other writers commit, in any number and order. */
    method Interfere(commits: seq<Commit<O>>)
      requires Valid()
      modifies this
      ensures Valid() && log == old(log) + commits && old(history) <= history
    {
      var i := 0;
      while i < |commits|
        invariant i <= |commits|
        invariant Valid() && log == old(log) + commits[..i] && old(history) <= history
      {
        history, log := history + [Replay1(apply, history[|log|], commits[i])], log + [commits[i]];
        i := i + 1;
      }
    }

    /** The conditional write: accepted only on the version the caller read. */
    method Update(id: nat, mutate: O, copy: Object<S>, next: Object<S>, reply: Reply) returns (r: Result<S>)
      requires Valid() && Stored(history, copy) && next == Mutated(apply, copy, mutate)
      modifies this
      ensures Valid()
      ensures reply == ErrorBeforeCommit ==> r == WriteFailed(false)
      ensures reply != ErrorBeforeCommit && copy.resourceVersion != |old(log)| ==> r == ConflictsExhausted
      ensures reply != ErrorBeforeCommit && copy.resourceVersion == |old(log)| ==>
                r == if reply == Accepted then Written(|old(log)| + 1) else WriteFailed(true)
      ensures if r.Written? || r == WriteFailed(true)
              then log == old(log) + [StatusWrite(id, mutate)] && old(history) <= history
              else log == old(log) && history == old(history)
    {
      var latest := history[|log|];
      if reply == ErrorBeforeCommit { return WriteFailed(false); }
      if copy.resourceVersion != latest.resourceVersion { return ConflictsExhausted; }
      history := history + [latest.(resourceVersion := |history|, status := next.status,
                                    observedGeneration := next.observedGeneration)];
      log := log + [StatusWrite(id, mutate)];
      r := if reply == Accepted then Written(|log|) else WriteFailed(true);
    }

    /** One turn of the retry loop; ConflictsExhausted here means only that this turn met a conflict. With the version
        it reads called copy: it fails to read exactly when the read does; otherwise it sends nothing exactly when the
        mutate leaves copy as it is; otherwise it fails without a commit exactly when that is how the request ends;
        otherwise it meets a conflict exactly when copy is no longer the latest version; and otherwise it commits, and
        knows it unless the reply is lost. */
    method Try(id: nat, mutate: O, a: Attempt<O>) returns (r: Result<S>)
      requires Valid() && forall c :: c in a.before + a.between ==> !OwnWrite(c, id)
      modifies this
      ensures Valid() && old(log) <= log && old(history) <= history
      ensures WritesBy(log, id) == WritesBy(old(log), id) + (if r.Written? || r == WriteFailed(true) then 1 else 0)
      ensures r.Unchanged? ==> Stored(history, r.read) && Mutated(apply, r.read, mutate) == r.read
      ensures r.Written? ==> 0 < r.version == |log| && log[r.version - 1] == StatusWrite(id, mutate)
      ensures r.ReadFailed? <==> a.readFails
      ensures !a.readFails ==>
                var v, n := ReadVersion(a, |old(history)|), |old(log)| + |a.before|;
                && v <= n < |history|
                && (Mutated(apply, history[v], mutate) == history[v] ==> r == Unchanged(history[v]))
                && (Mutated(apply, history[v], mutate) != history[v] ==> Sent(a, v < n, n + 1, r))
    {
      ForeignWrites(log, a.before, id);
      Interfere(a.before);
      if a.readFails { return ReadFailed; }
      var copy := history[if a.lag < |history| then |history| - 1 - a.lag else 0];
      var next := Mutated(apply, copy, mutate);
      if next == copy { return Unchanged(copy); }
      r := Send(id, mutate, copy, next, a);
    }

    /** The second half of a turn: others may come in between, then the write. */
    method Send(id: nat, mutate: O, copy: Object<S>, next: Object<S>, a: Attempt<O>) returns (r: Result<S>)
      requires Valid() && Stored(history, copy) && next == Mutated(apply, copy, mutate)
      requires forall c :: c in a.between ==> !OwnWrite(c, id)
      modifies this
      ensures Valid() && old(log) <= log && old(history) <= history
      ensures WritesBy(log, id) == WritesBy(old(log), id) + (if r.Written? || r == WriteFailed(true) then 1 else 0)
      ensures r.Written? ==> 0 < r.version == |log| && log[r.version - 1] == StatusWrite(id, mutate)
      ensures !r.ReadFailed? && !r.Unchanged? && Sent(a, copy.resourceVersion < |old(log)|, |old(log)| + 1, r)
    {
      ForeignWrites(log, a.between, id);
      Interfere(a.between);
      WritesByAppend(log, StatusWrite(id, mutate), id);
      r := Update(id, mutate, copy, next, a.reply);
    }

    /** One call. env describes what other writers and the network do around each attempt; the retries stop when the
        allowed attempts (one per entry of mutates) are used up. */
    method PatchStatus(id: nat, mutates: seq<O>, env: seq<Attempt<O>>) returns (r: Result<S>)
      requires Valid() && mutates != [] && |env| == |mutates|
      requires forall i, c :: 0 <= i < |env| && c in env[i].before + env[i].between ==> !OwnWrite(c, id)
      modifies this
      ensures Valid() && old(log) <= log && old(history) <= history
      ensures WritesBy(log, id) == WritesBy(old(log), id) + (if r.Written? || r == WriteFailed(true) then 1 else 0)
      ensures r.Unchanged? ==>
        Stored(history, r.read) && exists m :: m in mutates && Mutated(apply, r.read, m) == r.read
      ensures r.Written? ==>
        0 < r.version == |log| && exists m :: m in mutates && log[r.version - 1] == StatusWrite(id, m)
      ensures r.ConflictsExhausted? ==> forall i :: 0 <= i < |env| ==> env[i].between != [] || env[i].lag > 0
      ensures (exists i :: 0 <= i < |env| && Quiet(env[i]) && forall j :: 0 <= j < i ==> Answered(env[j])) ==>
                r.Written? || r.Unchanged?
      ensures r.ReadFailed? ==> exists a :: a in env && a.readFails
      ensures r == WriteFailed(false) ==> exists a :: a in env && a.reply == ErrorBeforeCommit
      ensures r == WriteFailed(true) ==> exists a :: a in env && a.reply == ErrorAfterCommit && a.between == []
    {
      var attempt := 0;
      r := ConflictsExhausted;
      while attempt < |mutates| && r.ConflictsExhausted?
        invariant attempt <= |mutates|
        invariant Valid() && old(log) <= log && old(history) <= history
        invariant WritesBy(log, id) == WritesBy(old(log), id) + (if r.Written? || r == WriteFailed(true) then 1 else 0)
        invariant forall i :: 0 <= i < attempt - (if r.ConflictsExhausted? then 0 else 1) ==>
                    env[i].between != [] || env[i].lag > 0
        invariant !(r.Written? || r.Unchanged? || r.ConflictsExhausted?) ==>
                    attempt > 0 && Explains(env[attempt - 1], r)
        invariant r.Unchanged? ==>
          Stored(history, r.read) && exists m :: m in mutates && Mutated(apply, r.read, m) == r.read
        invariant r.Written? ==>
          0 < r.version == |log| && exists m :: m in mutates && log[r.version - 1] == StatusWrite(id, m)
      {
        assert mutates[attempt] in mutates && env[attempt] in env;
        r := Try(id, mutates[attempt], env[attempt]);
        attempt := attempt + 1;
      }
    }
  }

  /** The error is what happened in this attempt. */
  predicate Explains<S, O>(a: Attempt<O>, r: Result<S>) {
    && !Answered(a)
    && (r.ReadFailed? ==> a.readFails)
    && (r == WriteFailed(false) ==> a.reply == ErrorBeforeCommit)
    && (r == WriteFailed(true) ==> a.reply == ErrorAfterCommit && a.between == [])
  }

  predicate OwnWrite<O>(c: Commit<O>, id: nat) {
    c.StatusWrite? && c.caller == id
  }

  lemma {:induction false} ForeignWrites<O>(log: seq<Commit<O>>, more: seq<Commit<O>>, id: nat)
    requires forall c :: c in more ==> !OwnWrite(c, id)
    ensures WritesBy(log + more, id) == WritesBy(log, id)
  {
    if more == [] {
      assert log + more == log;
    } else {
      var n := |more| - 1;
      assert !OwnWrite(more[n], id) by { assert more[n] in more; }
      ForeignWrites(log, more[..n], id);
      WritesByAppend(log + more[..n], more[n], id);
      assert log + more == (log + more[..n]) + [more[n]];
    }
  }
}
