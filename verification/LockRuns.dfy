/**
 Whole runs of the conditional lock: acquisitions are serial down to the snapshot, every
 effect is guarded by the credential, the latch is reached once, no run raises a timestamp
 error, the counter counts, and every answer reports what happened.
 */
module LockRuns {
  import opened Common
  import opened Store
  import opened Sessions
  import opened Serializability
  import opened LockAuth
  import opened LockProtocol
  import opened LockEffects
  import opened LockAttempts
  import opened LockSafety

  predicate HasAcquired(p: Phase) {
    IsHolder(p) || p.Released? || (p.Replied? && p.reply.Result? && p.reply.acquired)
  }

  /** The attempt does not read the lock any more. */
  predicate PastLook(p: Phase) {
    !p.Ready? && !p.Begun? && !p.Authorized?
  }

  // ----- What a step can do to the handlers and to the trace -----

  /** What one step may do to the handler that takes it. */
  predicate Moves(h: Handler, h': Handler) {
    && h'.presented == h.presented && h'.participant == h.participant && h.attempts <= h'.attempts
    && (HasAcquired(h.phase) ==> HasAcquired(h'.phase))
    && (IsHolder(h.phase) ==> IsHolder(h'.phase) || h'.phase == Released)
    && (h'.attempts == h.attempts && PastLook(h.phase) ==> PastLook(h'.phase) && h'.lockVersion == h.lockVersion)
  }

  /** Only the handler that takes the step moves; an arrival adds one. */
  ghost predicate Carries(w: World, a: Action, w': World) {
    && |w.handlers| <= |w'.handlers|
    && (forall q :: 0 <= q < |w.handlers| ==>
          w'.handlers[q] == w.handlers[q] ||
            (!a.Arrive? && !a.Others? && a.request == q && Moves(w.handlers[q], w'.handlers[q])))
    && (forall q :: |w.handlers| <= q < |w'.handlers| ==> JustArrived(w'.handlers[q]))
  }

  predicate JustArrived(h: Handler) {
    && h.attempts == 0 && h.observations == []
    && (h.phase.Ready? || (h.phase.Replied? && !h.phase.reply.Result?))
  }

  /** The event of a step, if any, and the phases it belongs to. */
  ghost predicate Tells(w: World, a: Action, w': World) {
    || w'.trace == w.trace
    || exists e :: w'.trace == w.trace + [e] && Explains(w, a, w', e)
  }

  ghost predicate Explains(w: World, a: Action, w': World, e: Event) {
    var r := e.request;
    && r < |w.handlers| == |w'.handlers|
    && match e
       case Snapshot(_, attempt, context) =>
         && w.handlers[r].phase == Begun && attempt == w.handlers[r].attempts
         && w'.handlers[r].phase == ContextVerdict(w.handlers[r].presented, context)
       case Looked(_, attempt, locked, version) =>
         && w.handlers[r].phase.Authorized? && attempt == w.handlers[r].attempts == w'.handlers[r].attempts
         && w'.handlers[r].phase.Observed? && version == w'.handlers[r].lockVersion
         && w'.handlers[r].observations == w.handlers[r].observations + [locked]
       case Latched(_) =>
         && w.handlers[r].phase.Observed? && w.handlers[r].attempts == 1
         && (w'.handlers[r].phase.Decided? || w'.handlers[r].phase.Thrown?) && w'.handlers[r].attempts == 1
       case Acquired(_, _, _, _) =>
         && w.handlers[r].phase == Decided(true) && w'.handlers[r].phase == Holding && e == AcquiredEvent(w, r)
         && a.TryCommit? && a.request == r
         && Commit(w.session.store, PendingWrites(w.handlers[r]), Some(w.handlers[r].tx), a.now).1.Done?
       case Freed(_) => w.handlers[r].phase == Counted && w'.handlers[r].phase == Released
  }

  /** The lock is let go only by a release, which is in the trace. */
  ghost predicate LetsGo(w: World, w': World) {
    forall q :: Holds(w, q) && !Holds(w', q) ==> w'.trace == w.trace + [Freed(q)]
  }

  lemma AttemptCarries(w: World, a: Action)
    requires a.Attempt? || a.ReadContext? || a.ReadLock? || a.Proceed?
    ensures Carries(w, a, Next(w, a))
  {
    hide Serve, Read, ParseContext;
  }

  lemma EndingCarries(w: World, a: Action)
    requires a.TryCommit? || a.Count? || a.Release? || a.Answer? || a.Fail?
    ensures Carries(w, a, Next(w, a))
  {
    hide Serve, Commit, AcquireWrites, CountWrites, ReleaseWrites;
  }

  lemma NextCarries(w: World, a: Action)
    ensures Carries(w, a, Next(w, a))
  {
    if a.Attempt? || a.ReadContext? || a.ReadLock? || a.Proceed? {
      AttemptCarries(w, a);
    } else if !a.Arrive? && !a.Others? {
      EndingCarries(w, a);
    } else {
      hide Serve;
    }
  }

  lemma NextLetsGo(w: World, a: Action)
    ensures LetsGo(w, Next(w, a))
  {
    hide Serve, Commit, Read, ParseContext, AcquireWrites;
    NextCarries(w, a);
    var w' := Next(w, a);
    forall q | Holds(w, q) && !Holds(w', q) ensures w'.trace == w.trace + [Freed(q)] { }
  }

  lemma NextTells(w: World, a: Action)
    ensures Tells(w, a, Next(w, a))
  {
    hide Serve, Commit, Read, ParseContext;
    var w' := Next(w, a);
    if |w'.trace| == |w.trace| + 1 && w'.trace != w.trace {
      var e := w'.trace[|w.trace|];
      assert w'.trace == w.trace + [e];
      assert Explains(w, a, w', e);
    }
  }

  // ----- Acquisitions -----

  /** The lock of `trace[i]`'s request is let go before `trace[j]`'s request takes its snapshot. */
  ghost predicate InTurn(trace: seq<Event>, i: int, j: int)
    requires 0 <= i < j < |trace| && trace[i].Acquired? && trace[j].Acquired?
  {
    exists k, m :: i < k < m < j && trace[k] == Freed(trace[i].request)
                   && trace[m] == Snapshot(trace[j].request, trace[j].attempt, trace[j].context)
  }

  ghost predicate Serialized(trace: seq<Event>) {
    forall i, j :: 0 <= i < j < |trace| && trace[i].Acquired? && trace[j].Acquired? ==> InTurn(trace, i, j)
  }

  ghost predicate LetGo(trace: seq<Event>, i: int)
    requires 0 <= i < |trace|
  {
    exists k :: i < k < |trace| && trace[k] == Freed(trace[i].request)
  }

  /** One acquisition to a request, by a request that presents the context's token. */
  ghost predicate Owners(w: World) {
    && (forall i :: 0 <= i < |w.trace| && w.trace[i].Acquired? ==>
          && w.trace[i].request < |w.handlers|
          && HasAcquired(w.handlers[w.trace[i].request].phase)
          && Presents(w.handlers[w.trace[i].request], w.trace[i].context))
    && (forall i, j :: 0 <= i < j < |w.trace| && w.trace[i].Acquired? && w.trace[j].Acquired? ==>
          w.trace[i].request != w.trace[j].request)
    && (forall r :: 0 <= r < |w.handlers| && HasAcquired(w.handlers[r].phase) ==> InTrace(w, r))
  }

  ghost predicate InTrace(w: World, r: nat) {
    exists i :: 0 <= i < |w.trace| && w.trace[i].Acquired? && w.trace[i].request == r
  }

  ghost predicate Settled(w: World) {
    forall i :: 0 <= i < |w.trace| && w.trace[i].Acquired? ==> Holds(w, w.trace[i].request) || LetGo(w.trace, i)
  }

  /** Each acquisition read a newer version of the lock than the ones before. */
  ghost predicate Versions(w: World) {
    && (forall i, j :: 0 <= i < j < |w.trace| && w.trace[i].Acquired? && w.trace[j].Acquired? ==>
          w.trace[i].lockVersion < w.trace[j].lockVersion)
    && (forall i :: 0 <= i < |w.trace| && w.trace[i].Acquired? ==>
          LockOf(w).Some? && w.trace[i].lockVersion < LockOf(w).value.version)
  }

  ghost predicate Orderly(w: World) {
    Serialized(w.trace) && Owners(w) && Settled(w) && Versions(w)
  }

  lemma LockIsOld(start: Serial, w: World)
    requires Good(start, w.session)
    ensures LockOf(w).Some? ==> LockOf(w).value.version <= w.session.store.version
  {
    var h := w.session.store.history;
    if LOCK in h { assert GoodEntries(h[LOCK], w.session.store.version); }
  }

  ghost predicate Appends(w: World, w': World, e: Event) {
    w'.trace == w.trace + [e]
  }

  /** Nothing is acquired in the step. */
  lemma OrderlyQuiet(start: Serial, w: World, a: Action, w': World)
    requires Safe(start, w) && Orderly(w) && Onward(w, w') && Carries(w, a, w') && LetsGo(w, w')
    requires w'.trace == w.trace || exists e :: Appends(w, w', e) && !e.Acquired?
    requires forall r :: 0 <= r < |w'.handlers| && HasAcquired(w'.handlers[r].phase) ==>
               r < |w.handlers| && HasAcquired(w.handlers[r].phase)
    ensures Orderly(w')
  {
    hide Safe, Attempts, Exclusive, StampedAlways, Good;
    assert forall i :: 0 <= i < |w'.trace| && w'.trace[i].Acquired? ==> i < |w.trace| && w'.trace[i] == w.trace[i];
    SerializedQuiet(w, w');
    SettledQuiet(w, w');
    VersionsQuiet(start, w, w');
    OwnersQuiet(w, a, w');
  }

  ghost predicate OldAcquisitions(w: World, w': World) {
    && |w.trace| <= |w'.trace| && w'.trace[..|w.trace|] == w.trace
    && forall i :: 0 <= i < |w'.trace| && w'.trace[i].Acquired? ==> i < |w.trace|
  }

  lemma SerializedQuiet(w: World, w': World)
    requires Serialized(w.trace) && OldAcquisitions(w, w')
    ensures Serialized(w'.trace)
  {
    forall i, j | 0 <= i < j < |w'.trace| && w'.trace[i].Acquired? && w'.trace[j].Acquired?
      ensures InTurn(w'.trace, i, j)
    {
      assert forall n :: 0 <= n < |w.trace| ==> w'.trace[n] == w'.trace[..|w.trace|][n] == w.trace[n];
      assert InTurn(w.trace, i, j);
    }
  }

  lemma SettledQuiet(w: World, w': World)
    requires Settled(w) && OldAcquisitions(w, w') && LetsGo(w, w')
    ensures Settled(w')
  {
    assert forall n :: 0 <= n < |w.trace| ==> w'.trace[n] == w'.trace[..|w.trace|][n] == w.trace[n];
    forall i | 0 <= i < |w'.trace| && w'.trace[i].Acquired?
      ensures Holds(w', w'.trace[i].request) || LetGo(w'.trace, i)
    {
      if LetGo(w.trace, i) {
        var k :| i < k < |w.trace| && w.trace[k] == Freed(w.trace[i].request);
        assert w'.trace[k] == Freed(w'.trace[i].request);
      } else if !Holds(w', w'.trace[i].request) {
        assert w'.trace[|w.trace|] == Freed(w'.trace[i].request);
      }
    }
  }

  lemma VersionsQuiet(start: Serial, w: World, w': World)
    requires Safe(start, w) && Versions(w) && OldAcquisitions(w, w') && Onward(w, w')
    ensures Versions(w')
  {
    LockIsOld(start, w);
    assert forall n :: 0 <= n < |w.trace| ==> w'.trace[n] == w'.trace[..|w.trace|][n] == w.trace[n];
  }

  lemma OwnersQuiet(w: World, a: Action, w': World)
    requires Owners(w) && OldAcquisitions(w, w') && Carries(w, a, w')
    requires forall r :: 0 <= r < |w'.handlers| && HasAcquired(w'.handlers[r].phase) ==>
               r < |w.handlers| && HasAcquired(w.handlers[r].phase)
    ensures Owners(w')
  {
    assert forall n :: 0 <= n < |w.trace| ==> w'.trace[n] == w'.trace[..|w.trace|][n] == w.trace[n];
    forall r | 0 <= r < |w'.handlers| && HasAcquired(w'.handlers[r].phase) ensures InTrace(w', r) {
      assert InTrace(w, r);
      var i :| 0 <= i < |w.trace| && w.trace[i].Acquired? && w.trace[i].request == r;
      assert w'.trace[i].Acquired? && w'.trace[i].request == r;
    }
  }

  // ----- The step that acquires -----

  /** The step that appends `AcquiredEvent(w, r)`, with what it found. */
  ghost predicate Acquires(w: World, w': World, r: nat) {
    && r < |w.handlers| == |w'.handlers|
    && w.handlers[r].phase == Decided(true)
    && w'.handlers == w.handlers[r := w'.handlers[r]] && w'.handlers[r].phase == Holding
    && w'.handlers[r].presented == w.handlers[r].presented
    && w'.trace == w.trace + [AcquiredEvent(w, r)]
    && !Locked(LockOf(w)) && LockOf(w).Some?
    && Presents(w.handlers[r], Get(w.session.store.history, CONTEXT))
  }

  /** The committing attempt took its snapshot after the last change of the lock. */
  lemma SnapshotIsLast(start: Serial, w: World, r: nat, now: int)
    requires Safe(start, w) && r < |w.handlers| && w.handlers[r].phase == Decided(true)
    requires Commit(w.session.store, PendingWrites(w.handlers[r]), Some(w.handlers[r].tx), now).1.Done?
    ensures w.handlers[r].snapshotAt < |w.trace|
    ensures w.trace[w.handlers[r].snapshotAt] ==
              Snapshot(r, w.handlers[r].attempts, Get(w.session.store.history, CONTEXT))
    ensures forall k :: w.handlers[r].snapshotAt < k < |w.trace| ==> !LockChange(w.trace[k])
  {
    hide Commit, GoodLog, Exclusive, StampedAlways;
    var h := w.handlers[r];
    var st := w.session.store;
    assert AttemptOk(start, w, r);
    AcquireFindsUnlocked(start, w, r, now);
    assert GoodTransaction(st, SeenBy(w.session, h.tx), h.tx);
    AcceptedReadsAreCurrent(start, w.session, PendingWrites(h), h.tx, now);
    CurrentIsLatest(st.history, CONTEXT);
    if LOCK in st.history { AsOfIsOld(st.history[LOCK], st.txs[h.tx].readVersion); }
  }

  lemma AcquiringSerialized(start: Serial, w: World, w': World, r: nat)
    requires Exclusive(w) && Serialized(w.trace) && Settled(w) && Acquires(w, w', r)
    requires w.handlers[r].snapshotAt < |w.trace|
    requires w.trace[w.handlers[r].snapshotAt] ==
               Snapshot(r, w.handlers[r].attempts, Get(w.session.store.history, CONTEXT))
    requires forall k :: w.handlers[r].snapshotAt < k < |w.trace| ==> !LockChange(w.trace[k])
    ensures Serialized(w'.trace)
  {
    var n := |w.trace|;
    forall i, j | 0 <= i < j < |w'.trace| && w'.trace[i].Acquired? && w'.trace[j].Acquired?
      ensures InTurn(w'.trace, i, j)
    {
      if j < n {
        assert InTurn(w.trace, i, j);
        var k, m :| i < k < m < j && w.trace[k] == Freed(w.trace[i].request)
                    && w.trace[m] == Snapshot(w.trace[j].request, w.trace[j].attempt, w.trace[j].context);
        assert w'.trace[k] == w.trace[k] && w'.trace[m] == w.trace[m];
      } else {
        assert LetGo(w.trace, i);
        var k :| i < k < n && w.trace[k] == Freed(w.trace[i].request);
        var m := w.handlers[r].snapshotAt;
        assert w'.trace[k] == Freed(w'.trace[i].request) && w'.trace[m] == w.trace[m];
      }
    }
  }

  lemma AcquiringOwners(w: World, w': World, r: nat)
    requires Owners(w) && Acquires(w, w', r)
    ensures Owners(w')
  {
    hide ParseContext, TokenMatches, Locked, LockOf;
    var n := |w.trace|;
    assert w'.trace[n] == AcquiredEvent(w, r);
    assert forall i :: 0 <= i < n ==> w'.trace[i] == w.trace[i];
    forall q | 0 <= q < |w'.handlers| && HasAcquired(w'.handlers[q].phase) ensures InTrace(w', q) {
      if q != r {
        assert InTrace(w, q);
        var i :| 0 <= i < n && w.trace[i].Acquired? && w.trace[i].request == q;
        assert w'.trace[i].Acquired? && w'.trace[i].request == q;
      } else {
        assert w'.trace[n].Acquired? && w'.trace[n].request == r;
      }
    }
  }

  lemma AcquiringVersions(start: Serial, w: World, w': World, r: nat)
    requires Good(start, w.session) && Versions(w) && Acquires(w, w', r) && Onward(w, w')
    ensures Versions(w')
  {
    hide Good;
    LockIsOld(start, w);
    var n := |w.trace|;
    assert w'.trace[n] == AcquiredEvent(w, r);
    assert forall i :: 0 <= i < n ==> w'.trace[i] == w.trace[i];
  }

  lemma AcquiringSettled(w: World, w': World, r: nat)
    requires Settled(w) && Acquires(w, w', r)
    ensures Settled(w')
  {
    var n := |w.trace|;
    forall i | 0 <= i < |w'.trace| && w'.trace[i].Acquired?
      ensures Holds(w', w'.trace[i].request) || LetGo(w'.trace, i)
    {
      if i < n && LetGo(w.trace, i) {
        var k :| i < k < n && w.trace[k] == Freed(w.trace[i].request);
        assert w'.trace[k] == Freed(w'.trace[i].request);
      } else if i < n {
        assert Holds(w, w.trace[i].request);
      }
    }
  }

  lemma AcquiringShape(w: World, a: Action, r: nat)
    requires a.TryCommit? && a.request == r < |w.handlers| && w.handlers[r].phase == Decided(true)
    requires Commit(w.session.store, PendingWrites(w.handlers[r]), Some(w.handlers[r].tx), a.now).1.Done?
    ensures var w' := Next(w, a);
            && |w'.handlers| == |w.handlers| && w'.handlers == w.handlers[r := w'.handlers[r]]
            && w'.handlers[r].phase == Holding && w'.handlers[r].presented == w.handlers[r].presented
            && w'.trace == w.trace + [AcquiredEvent(w, r)]
  {
    hide Commit, Serve, AcquireWrites;
    CommitShape(w, r, a.givesUp, a.now);
  }

  lemma AcquiringOrderly(start: Serial, w: World, a: Action, r: nat)
    requires Safe(start, w) && Orderly(w) && Onward(w, Next(w, a))
    requires a.TryCommit? && a.request == r < |w.handlers| && w.handlers[r].phase == Decided(true)
    requires Commit(w.session.store, PendingWrites(w.handlers[r]), Some(w.handlers[r].tx), a.now).1.Done?
    ensures Orderly(Next(w, a))
  {
    hide Commit, Next, StampedAlways, Good, Exclusive, GoodTransactions;
    var w' := Next(w, a);
    AcquiringShape(w, a, r);
    AcquireFindsUnlocked(start, w, r, a.now);
    SnapshotIsLast(start, w, r, a.now);
    AcquiringSerialized(start, w, w', r);
    AcquiringOwners(w, w', r);
    AcquiringVersions(start, w, w', r);
    AcquiringSettled(w, w', r);
  }

  /** An acquisition shows in the trace. */
  lemma AcquisitionsTell(w: World, a: Action, r: nat)
    requires r < |Next(w, a).handlers| && HasAcquired(Next(w, a).handlers[r].phase)
    requires r >= |w.handlers| || !HasAcquired(w.handlers[r].phase)
    ensures r < |w.handlers| && Next(w, a).trace == w.trace + [AcquiredEvent(w, r)]
  {
    hide Serve, Commit, Read, ParseContext, AcquireWrites;
    NextCarries(w, a);
  }

  lemma NextOrderly(start: Serial, w: World, a: Action)
    requires Safe(start, w) && Orderly(w)
    ensures Orderly(Next(w, a))
  {
    hide Next, Orderly, Safe, Commit;
    var w' := Next(w, a);
    NextSafe(start, w, a);
    NextCarries(w, a);
    NextLetsGo(w, a);
    NextTells(w, a);
    if e :| w'.trace == w.trace + [e] && Explains(w, a, w', e) && e.Acquired? {
      AcquiringOrderly(start, w, a, e.request);
    } else {
      forall r | 0 <= r < |w'.handlers| && HasAcquired(w'.handlers[r].phase)
        ensures r < |w.handlers| && HasAcquired(w.handlers[r].phase)
      {
        if r >= |w.handlers| || !HasAcquired(w.handlers[r].phase) {
          AcquisitionsTell(w, a, r);
        }
      }
      if w'.trace != w.trace {
        var e :| w'.trace == w.trace + [e] && Explains(w, a, w', e);
        assert Appends(w, w', e);
      }
      OrderlyQuiet(start, w, a, w');
    }
  }

  lemma {:induction false} RunOrderly(w: World, actions: seq<Action>)
    requires Initial(w)
    ensures Safe(StartOf(w.session), Run(w, actions)) && Orderly(Run(w, actions))
  {
    hide Safe, Next;
    if actions == [] {
      RunSafe(w, actions);
    } else {
      var before := actions[..|actions| - 1];
      RunOrderly(w, before);
      NextSafe(StartOf(w.session), Run(w, before), actions[|actions| - 1]);
      NextOrderly(StartOf(w.session), Run(w, before), actions[|actions| - 1]);
    }
  }

  /**
   Acquisitions are serial down to the read: of any two, the first is released before the
   committing attempt of the second takes the snapshot it reads the lock from.
   */
  lemma AcquisitionsAreSerial(w: World, actions: seq<Action>, i: nat, j: nat)
    requires Initial(w)
    requires var t := Run(w, actions).trace; i < j < |t| && t[i].Acquired? && t[j].Acquired?
    ensures InTurn(Run(w, actions).trace, i, j)
  {
    RunOrderly(w, actions);
  }

  // ----- What was read -----

  /** `e` is the look of the attempt that `acquired` commits. */
  predicate SameAttempt(e: Event, acquired: Event) {
    e.Looked? && acquired.Acquired? && e.request == acquired.request && e.attempt == acquired.attempt
  }

  ghost predicate LookOk(w: World, e: Event)
    requires e.Looked?
  {
    && e.request < |w.handlers| && e.attempt <= w.handlers[e.request].attempts
    && (e.attempt == w.handlers[e.request].attempts ==>
          PastLook(w.handlers[e.request].phase) && e.version == w.handlers[e.request].lockVersion)
  }

  /** The look of a request's current attempt. */
  ghost predicate HasLooked(w: World, r: nat)
    requires r < |w.handlers|
  {
    exists k :: && 0 <= k < |w.trace| && w.trace[k].Looked? && w.trace[k].request == r
                && w.trace[k].attempt == w.handlers[r].attempts && w.trace[k].version == w.handlers[r].lockVersion
  }

  ghost predicate Looks(w: World) {
    && (forall k :: 0 <= k < |w.trace| && w.trace[k].Looked? ==> LookOk(w, w.trace[k]))
    && (forall r :: 0 <= r < |w.handlers| && (w.handlers[r].phase.Observed? || w.handlers[r].phase.Decided?) ==>
          HasLooked(w, r))
  }

  /** An acquisition was of the version that its attempt had looked at. */
  ghost predicate ReadRight(trace: seq<Event>) {
    && (forall k, i :: 0 <= k < |trace| && 0 <= i < |trace| && SameAttempt(trace[k], trace[i]) ==>
          trace[k].version == trace[i].lockVersion)
    && (forall i :: 0 <= i < |trace| && trace[i].Acquired? ==> Preceded(trace, i))
  }

  ghost predicate Preceded(trace: seq<Event>, i: int)
    requires 0 <= i < |trace|
  {
    exists k :: 0 <= k < i && SameAttempt(trace[k], trace[i])
  }

  lemma LookStays(w: World, a: Action, w': World, e: Event)
    requires e.Looked? && LookOk(w, e) && Carries(w, a, w')
    ensures LookOk(w', e)
  {
    hide HasAcquired, IsHolder;
  }

  /** A request decides on what it has looked at. */
  lemma DecidesOnLook(w: World, a: Action, r: nat)
    requires r < |Next(w, a).handlers|
    requires Next(w, a).handlers[r].phase.Observed? || Next(w, a).handlers[r].phase.Decided?
    ensures r < |w.handlers|
    ensures var w' := Next(w, a);
            || (w'.trace != w.trace && |w'.trace| == |w.trace| + 1 && w'.trace[|w.trace|].Looked? &&
                w'.trace[|w.trace|].request == r)
            || (&& (w.handlers[r].phase.Observed? || w.handlers[r].phase.Decided?)
                && w'.handlers[r].attempts == w.handlers[r].attempts
                && w'.handlers[r].lockVersion == w.handlers[r].lockVersion)
  {
    hide Serve, Commit, Read, ParseContext, AcquireWrites;
  }

  lemma HasLookedStays(w: World, w': World, r: nat)
    requires r < |w.handlers| && r < |w'.handlers| && HasLooked(w, r) && |w.trace| <= |w'.trace| &&
             w'.trace[..|w.trace|] == w.trace
    requires w'.handlers[r].attempts == w.handlers[r].attempts &&
             w'.handlers[r].lockVersion == w.handlers[r].lockVersion
    ensures HasLooked(w', r)
  {
    var k :| && 0 <= k < |w.trace| && w.trace[k].Looked? && w.trace[k].request == r
             && w.trace[k].attempt == w.handlers[r].attempts && w.trace[k].version == w.handlers[r].lockVersion;
    assert w'.trace[k] == w'.trace[..|w.trace|][k];
  }

  lemma NextLooks(w: World, a: Action)
    requires Looks(w)
    ensures Looks(Next(w, a))
  {
    hide Next;
    var w' := Next(w, a);
    NextCarries(w, a);
    NextTells(w, a);
    forall k | 0 <= k < |w'.trace| && w'.trace[k].Looked? ensures LookOk(w', w'.trace[k]) {
      if k < |w.trace| {
        assert w'.trace[k] == w.trace[k];
        LookStays(w, a, w', w.trace[k]);
      }
    }
    forall r | 0 <= r < |w'.handlers| && (w'.handlers[r].phase.Observed? || w'.handlers[r].phase.Decided?)
      ensures HasLooked(w', r)
    {
      DecidesOnLook(w, a, r);
      if w'.trace != w.trace && w'.trace[|w.trace|].Looked? && w'.trace[|w.trace|].request == r {
        assert LookOk(w', w'.trace[|w.trace|]);
        assert Explains(w, a, w', w'.trace[|w.trace|]);
      } else {
        HasLookedStays(w, w', r);
      }
    }
  }

  lemma AcquiredRight(start: Serial, w: World, a: Action, e: Event)
    requires Safe(start, w) && Looks(w) && ReadRight(w.trace)
    requires e.Acquired? && Next(w, a).trace == w.trace + [e] && Explains(w, a, Next(w, a), e)
    ensures ReadRight(Next(w, a).trace)
  {
    hide Next, Safe, Commit, Carries, HasAcquired;
    var n, t, t' := |w.trace|, w.trace, Next(w, a).trace;
    AcquireFindsUnlocked(start, w, e.request, a.now);
    assert e.lockVersion == w.handlers[e.request].lockVersion;
    forall k, i | 0 <= k < |t'| && 0 <= i < |t'| && SameAttempt(t'[k], t'[i])
      ensures t'[k].version == t'[i].lockVersion
    {
      assert k < n && t'[k] == t[k];
      if i < n { assert t'[i] == t[i]; } else { assert LookOk(w, t[k]); }
    }
    assert HasLooked(w, e.request);
    var l :| && 0 <= l < n && t[l].Looked? && t[l].request == e.request
             && t[l].attempt == w.handlers[e.request].attempts && t[l].version == w.handlers[e.request].lockVersion;
    assert SameAttempt(t'[l], t'[n]);
    forall i | 0 <= i < |t'| && t'[i].Acquired? ensures Preceded(t', i) {
      if i < n { PrecededStays(t, t', i); }
    }
  }

  lemma PrecededStays(t: seq<Event>, t': seq<Event>, i: nat)
    requires i < |t| <= |t'| && t'[..|t|] == t && Preceded(t, i)
    ensures Preceded(t', i)
  {
    var k :| 0 <= k < i && SameAttempt(t[k], t[i]);
    assert t'[k] == t'[..|t|][k] && t'[i] == t'[..|t|][i];
  }

  /** A step that acquires nothing: a new look is of a request that has not acquired. */
  lemma QuietRight(w: World, a: Action)
    requires Owners(w) && ReadRight(w.trace)
    requires var w' := Next(w, a);
             w'.trace == w.trace || exists e :: w'.trace == w.trace + [e] && Explains(w, a, w', e) && !e.Acquired?
    ensures ReadRight(Next(w, a).trace)
  {
    hide Next, Commit, Presents;
    var w' := Next(w, a);
    var n, t, t' := |w.trace|, w.trace, w'.trace;
    forall k, i | 0 <= k < |t'| && 0 <= i < |t'| && SameAttempt(t'[k], t'[i])
      ensures t'[k].version == t'[i].lockVersion
    {
      assert i < n && t'[i] == t[i];
      if k < n { assert t'[k] == t[k]; }
    }
    forall i | 0 <= i < |t'| && t'[i].Acquired? ensures Preceded(t', i) {
      assert i < n && t'[i] == t[i];
      PrecededStays(t, t', i);
    }
  }

  lemma {:induction false} RunLooks(w: World, actions: seq<Action>)
    requires Initial(w)
    ensures Looks(Run(w, actions)) && ReadRight(Run(w, actions).trace)
  {
    hide Safe, Next, Explains, Looks, ReadRight, Orderly;
    if actions == [] {
      assert Looks(w) && ReadRight(w.trace) by { NothingLooked(w); }
    } else {
      var before, a := actions[..|actions| - 1], actions[|actions| - 1];
      var v := Run(w, before);
      RunLooks(w, before);
      RunOrderly(w, before);
      NextLooks(v, a);
      NextTells(v, a);
      if e :| Next(v, a).trace == v.trace + [e] && Explains(v, a, Next(v, a), e) && e.Acquired? {
        AcquiredRight(StartOf(w.session), v, a, e);
      } else {
        assert Owners(v) by { OrderlyOwners(v); }
        QuietRight(v, a);
      }
    }
  }

  lemma OrderlyOwners(w: World)
    requires Orderly(w)
    ensures Owners(w)
  {
  }

  lemma NothingLooked(w: World)
    requires Initial(w)
    ensures Looks(w) && ReadRight(w.trace)
  {
  }

  /**
   Of all attempts that read one version of the lock at most one commits an acquire, and an
   attempt that does commit one has read the lock before.
   */
  lemma OneWinnerPerVersion(w: World, actions: seq<Action>, k: nat, l: nat, i: nat, j: nat)
    requires Initial(w)
    requires var t := Run(w, actions).trace; k < |t| && l < |t| && i < |t| && j < |t|
    ensures var t := Run(w, actions).trace;
            && (SameAttempt(t[k], t[i]) && SameAttempt(t[l], t[j]) && t[k].version == t[l].version ==> i == j)
            && (t[i].Acquired? ==> exists m :: 0 <= m < i && SameAttempt(t[m], t[i]))
  {
    hide Run, Safe;
    RunOrderly(w, actions);
    RunLooks(w, actions);
    var t := Run(w, actions).trace;
    if t[i].Acquired? { assert Preceded(t, i); }
  }
}
