/**
 What the handlers remember and answer: the observations, the timestamps they check, the
 credential behind every look at the lock, the latch, and the counter.
 */
module LockAnswers {
  import opened Common
  import opened Store
  import opened Sessions
  import opened Serializability
  import opened LockAuth
  import opened LockProtocol
  import opened LockEffects
  import opened LockAttempts
  import opened LockSafety
  import opened LockRuns

  // ----- What a handler remembers -----

  predicate LastIs(observations: seq<bool>, locked: bool) {
    observations != [] && observations[|observations| - 1] == locked
  }

  predicate StampedFields(lock: Fields) {
    IsLocked(lock) ==> Field(lock, "startedAt").Timestamp? && Field(lock, "updatedAt") == Field(lock, "startedAt")
  }

  /** At most one observation to an attempt, and the last one is what was decided on. */
  predicate Recorded(h: Handler) {
    && |h.observations| <= h.attempts
    && match h.phase
       case Begun => |h.observations| < h.attempts
       case Authorized(_) => |h.observations| < h.attempts
       case Observed(_, lock) => LastIs(h.observations, IsLocked(lock)) && StampedFields(lock)
       case Decided(acquired) => LastIs(h.observations, !acquired)
       case Holding => LastIs(h.observations, false)
       case Counted => LastIs(h.observations, false)
       case Stranded(_) => LastIs(h.observations, false)
       case Released => LastIs(h.observations, false)
       case Refusing => LastIs(h.observations, true)
       case Replied(reply) =>
         reply.Result? ==> && LastIs(reply.observations, !reply.acquired)
                           && reply.attempts == h.attempts && reply.observations == h.observations
       case Thrown(failure) => failure != StartIsNoTimestamp && failure != TimestampsDiffer
       case _ => true
  }

  ghost predicate AllRecorded(w: World) {
    forall r :: 0 <= r < |w.handlers| ==> Recorded(w.handlers[r])
  }

  /** A lock that is read is stamped, however old the snapshot. */
  lemma ReadLockStamped(start: Serial, w: World, r: nat, now: int)
    requires Safe(start, w) && r < |w.handlers| && w.handlers[r].phase.Authorized?
    requires Read(w.session.store, w.handlers[r].tx, LOCK, now).1.Ok?
    ensures var got := Read(w.session.store, w.handlers[r].tx, LOCK, now).1.value;
            got.Some? ==> StampedFields(got.value.fields)
  {
    var h := w.handlers[r];
    assert AttemptOk(start, w, r);
    ServedRead(w.session, h.tx, LOCK, now);
    var got := Read(w.session.store, h.tx, LOCK, now).1.value;
    assert got == GetAt(w.session.store.history, LOCK, w.session.store.txs[h.tx].readVersion);
    assert Stamped(got);
  }

  lemma ReadLockRecorded(start: Serial, w: World, r: nat, now: int)
    requires Safe(start, w) && r < |w.handlers| && Recorded(w.handlers[r])
    ensures Recorded(DoReadLock(w, r, now).handlers[r])
  {
    if w.handlers[r].phase.Authorized? && Read(w.session.store, w.handlers[r].tx, LOCK, now).1.Ok? {
      ReadLockStamped(start, w, r, now);
    }
    hide Safe, Serve, Read;
  }

  lemma StepRecorded(w: World, a: Action, r: nat)
    requires r < |w.handlers| && Recorded(w.handlers[r]) && !a.ReadLock?
    requires !a.Arrive? && !a.Others? && a.request == r
    ensures r < |Next(w, a).handlers| && Recorded(Next(w, a).handlers[r])
  {
    hide Serve, Commit, Read, AcquireWrites, CountWrites, ReleaseWrites;
  }

  lemma NextRecorded(start: Serial, w: World, a: Action)
    requires Safe(start, w) && AllRecorded(w)
    ensures AllRecorded(Next(w, a))
  {
    var w' := Next(w, a);
    NextCarries(w, a);
    hide Safe, Serve, Commit, Read, Next, Recorded;
    forall r | 0 <= r < |w'.handlers| ensures Recorded(w'.handlers[r]) {
      if r >= |w.handlers| {
        ArrivedRecorded(w'.handlers[r]);
      } else if w'.handlers[r] != w.handlers[r] {
        if a.ReadLock? {
          ReadLockRecorded(start, w, r, a.now);
          ReadLockIsNext(w, a);
        } else {
          StepRecorded(w, a, r);
        }
      }
    }
  }

  lemma ArrivedRecorded(h: Handler)
    requires JustArrived(h)
    ensures Recorded(h)
  {
  }

  lemma ReadLockIsNext(w: World, a: Action)
    requires a.ReadLock? && a.request < |w.handlers|
    ensures Next(w, a) == DoReadLock(w, a.request, a.now)
  {
  }

  lemma {:induction false} RunRecorded(w: World, actions: seq<Action>)
    requires Initial(w)
    ensures AllRecorded(Run(w, actions))
  {
    if actions != [] {
      hide Next;
      var before := actions[..|actions| - 1];
      RunRecorded(w, before);
      RunSafe(w, before);
      NextRecorded(StartOf(w.session), Run(w, before), actions[|actions| - 1]);
    }
  }

  /**
   A 200 or 409 carries an observation and no more of them than attempts, the last one
   false for the 200 and true for the 409; and no run of any request raises either of the
   two timestamp errors.
   */
  lemma AnswersAreRecorded(w: World, actions: seq<Action>, r: nat)
    requires Initial(w) && r < |Run(w, actions).handlers|
    ensures var h := Run(w, actions).handlers[r];
            && (h.phase.Replied? && Status(h.phase.reply) in {200, 409} ==>
                  && 1 <= |h.phase.reply.observations| <= h.phase.reply.attempts
                  && (Status(h.phase.reply) == 200 <==> !h.phase.reply.observations[|h.phase.reply.observations| - 1]))
            && h.phase != Thrown(StartIsNoTimestamp) && h.phase != Thrown(TimestampsDiffer)
  {
    RunRecorded(w, actions);
    assert Recorded(Run(w, actions).handlers[r]);
  }

  // ----- Refusals -----

  predicate IsRefused(p: Phase) {
    p.Refusing? || (p.Replied? && p.reply.Result? && !p.reply.acquired)
  }

  /** The request is under way and another one holds the lock. */
  ghost predicate HeldByAnother(w: World, r: nat) {
    r < |w.handlers| && !w.handlers[r].phase.Replied? && exists h :: h != r && Holds(w, h)
  }

  lemma RefusingStep(w: World, a: Action, r: nat)
    requires r < |Next(w, a).handlers| && IsRefused(Next(w, a).handlers[r].phase)
    requires r >= |w.handlers| || !IsRefused(w.handlers[r].phase)
    ensures a.TryCommit? && a.request == r < |w.handlers| && w.handlers[r].phase == Decided(false)
    ensures Commit(w.session.store, PendingWrites(w.handlers[r]), Some(w.handlers[r].tx), a.now).1.Done?
  {
    NextCarries(w, a);
    hide Serve, Commit, Read, ParseContext, AcquireWrites, CountWrites, ReleaseWrites;
  }

  lemma RefusalMoment(start: Serial, w: World, r: nat, now: int)
    requires Safe(start, w) && r < |w.handlers| && w.handlers[r].phase == Decided(false)
    requires Commit(w.session.store, PendingWrites(w.handlers[r]), Some(w.handlers[r].tx), now).1.Done?
    ensures HeldByAnother(w, r)
  {
    hide Commit;
    AcquireFindsUnlocked(start, w, r, now);
    var h :| Holds(w, h);
    assert h != r;
  }

  /** Every 409 has a moment within its request at which a different request held the lock. */
  lemma {:induction false} RefusalSawHolder(w: World, actions: seq<Action>, r: nat)
    requires Initial(w) && r < |Run(w, actions).handlers| && IsRefused(Run(w, actions).handlers[r].phase)
    ensures exists i :: 0 <= i <= |actions| && HeldByAnother(Run(w, actions[..i]), r)
  {
    hide Next, HeldByAnother;
    var n := |actions| - 1;
    var before := actions[..n];
    var wb := Run(w, before);
    if r < |wb.handlers| && IsRefused(wb.handlers[r].phase) {
      RefusalSawHolder(w, before, r);
      var i :| 0 <= i <= n && HeldByAnother(Run(w, before[..i]), r);
      assert actions[..i] == before[..i];
      assert HeldByAnother(Run(w, actions[..i]), r);
    } else {
      RunSafe(w, before);
      RefusingStep(wb, actions[n], r);
      RefusalMoment(StartOf(w.session), wb, r, actions[n].now);
      assert HeldByAnother(Run(w, actions[..n]), r);
    }
  }

  // ----- The credential -----

  /** The attempt `n` of `r` read a context whose token is the one presented, before `i`. */
  ghost predicate AdmittedBefore(w: World, r: nat, n: nat, i: int) {
    r < |w.handlers| &&
    exists j :: 0 <= j < i && j < |w.trace| && w.trace[j].Snapshot? && w.trace[j].request == r
                && w.trace[j].attempt == n && Configures(w.trace[j].context, w.handlers[r].presented)
  }

  ghost predicate LatchedAt(w: World, i: int, r: nat) {
    0 <= i < |w.trace| && w.trace[i] == Latched(r)
  }

  predicate BeforeLatch(h: Handler) {
    h.attempts == 0 || (h.attempts == 1 && (h.phase.Begun? || h.phase.Authorized? || h.phase.Observed?))
  }

  predicate Inside(p: Phase) {
    p.Authorized? || p.Observed?
  }

  ghost predicate Guarded(w: World) {
    && (forall r :: 0 <= r < |w.handlers| && Inside(w.handlers[r].phase) ==>
          AdmittedBefore(w, r, w.handlers[r].attempts, |w.trace|))
    && (forall i :: 0 <= i < |w.trace| && w.trace[i].Looked? ==>
          AdmittedBefore(w, w.trace[i].request, w.trace[i].attempt, i))
    && (forall i, r: nat :: LatchedAt(w, i, r) ==> AdmittedBefore(w, r, 1, i) && !BeforeLatch(w.handlers[r]))
    && (forall i, j, r: nat :: LatchedAt(w, i, r) && LatchedAt(w, j, r) ==> i == j)
  }

  lemma AdmissionStays(w: World, a: Action, w': World, r: nat, n: nat, i: int)
    requires AdmittedBefore(w, r, n, i) && Carries(w, a, w')
    requires |w.trace| <= |w'.trace| && w'.trace[..|w.trace|] == w.trace
    ensures AdmittedBefore(w', r, n, i)
  {
    var j :| 0 <= j < i && j < |w.trace| && w.trace[j].Snapshot? && w.trace[j].request == r
             && w.trace[j].attempt == n && Configures(w.trace[j].context, w.handlers[r].presented);
    assert w'.trace[j] == w'.trace[..|w.trace|][j] == w.trace[j];
  }

  /** Nobody goes back to before the latch. */
  lemma LatchIsPassed(w: World, a: Action, r: nat)
    requires r < |w.handlers|
    ensures r < |Next(w, a).handlers| && (BeforeLatch(Next(w, a).handlers[r]) ==> BeforeLatch(w.handlers[r]))
  {
    NextCarries(w, a);
    hide Serve, Commit, Read, ParseContext, AcquireWrites, CountWrites, ReleaseWrites;
  }

  /** Nobody is admitted but by the context it read. */
  lemma AdmittedByContext(w: World, a: Action, r: nat)
    requires r < |w.handlers| && r < |Next(w, a).handlers| && Inside(Next(w, a).handlers[r].phase)
    ensures Next(w, a).handlers[r].attempts == w.handlers[r].attempts
    ensures var w' := Next(w, a);
            || Inside(w.handlers[r].phase)
            || (&& |w'.trace| == |w.trace| + 1 && w'.trace[|w.trace|].Snapshot?
                && w'.trace[|w.trace|].request == r && w'.trace[|w.trace|].attempt == w'.handlers[r].attempts
                && Presents(w'.handlers[r], w'.trace[|w.trace|].context))
  {
    hide Serve, Commit, Read, ParseContext, AcquireWrites, CountWrites, ReleaseWrites;
  }

  lemma HandlersGuarded(w: World, a: Action, r: nat)
    requires Guarded(w) && r < |Next(w, a).handlers|
    requires Inside(Next(w, a).handlers[r].phase)
    requires |w.trace| <= |Next(w, a).trace| && Next(w, a).trace[..|w.trace|] == w.trace
    ensures AdmittedBefore(Next(w, a), r, Next(w, a).handlers[r].attempts, |Next(w, a).trace|)
  {
    hide Next;
    var w' := Next(w, a);
    NextCarries(w, a);
    assert r < |w.handlers|;
    AdmittedByContext(w, a, r);
    if Inside(w.handlers[r].phase) {
      AdmissionStays(w, a, w', r, w.handlers[r].attempts, |w.trace|);
    }
  }

  lemma EventsGuarded(w: World, a: Action, i: nat)
    requires Guarded(w) && i < |Next(w, a).trace|
    requires |w.trace| <= |Next(w, a).trace| && Next(w, a).trace[..|w.trace|] == w.trace
    ensures var e := Next(w, a).trace[i];
            && (e.Looked? ==> AdmittedBefore(Next(w, a), e.request, e.attempt, i))
            && (e.Latched? ==> && AdmittedBefore(Next(w, a), e.request, 1, i)
                               && !BeforeLatch(Next(w, a).handlers[e.request]))
  {
    hide Next;
    var w' := Next(w, a);
    var e := w'.trace[i];
    NextCarries(w, a);
    NextTells(w, a);
    if i < |w.trace| {
      assert e == w'.trace[..|w.trace|][i] == w.trace[i];
      if e.Latched? { assert LatchedAt(w, i, e.request); }
      if e.Looked? || e.Latched? {
        AdmissionStays(w, a, w', e.request, if e.Looked? then e.attempt else 1, i);
        LatchIsPassed(w, a, e.request);
      }
    } else {
      assert Explains(w, a, w', e);
      if e.Looked? || e.Latched? { AdmissionStays(w, a, w', e.request, w.handlers[e.request].attempts, i); }
    }
  }

  lemma LatchesOnce(w: World, a: Action, i: int, j: int, r: nat)
    requires Guarded(w) && LatchedAt(Next(w, a), i, r) && LatchedAt(Next(w, a), j, r)
    requires |w.trace| <= |Next(w, a).trace| && Next(w, a).trace[..|w.trace|] == w.trace
    ensures i == j
  {
    hide Next;
    NextTells(w, a);
    assert i < |w.trace| ==> LatchedAt(w, i, r);
    assert j < |w.trace| ==> LatchedAt(w, j, r);
    assert i >= |w.trace| || j >= |w.trace| ==> Explains(w, a, Next(w, a), Latched(r));
  }

  lemma NextGuarded(start: Serial, w: World, a: Action)
    requires Safe(start, w) && Guarded(w)
    ensures Guarded(Next(w, a))
  {
    hide Next, Safe;
    var w' := Next(w, a);
    NextSafe(start, w, a);
    NextTells(w, a);
    forall r | 0 <= r < |w'.handlers| && Inside(w'.handlers[r].phase)
      ensures AdmittedBefore(w', r, w'.handlers[r].attempts, |w'.trace|)
    {
      HandlersGuarded(w, a, r);
    }
    forall i | 0 <= i < |w'.trace| && w'.trace[i].Looked?
      ensures AdmittedBefore(w', w'.trace[i].request, w'.trace[i].attempt, i)
    {
      EventsGuarded(w, a, i);
    }
    forall i, r: nat | LatchedAt(w', i, r) ensures AdmittedBefore(w', r, 1, i) && !BeforeLatch(w'.handlers[r]) {
      EventsGuarded(w, a, i);
    }
    forall i, j, r: nat | LatchedAt(w', i, r) && LatchedAt(w', j, r) ensures i == j {
      LatchesOnce(w, a, i, j, r);
    }
  }

  lemma {:induction false} RunGuarded(w: World, actions: seq<Action>)
    requires Initial(w)
    ensures Guarded(Run(w, actions))
  {
    if actions != [] {
      hide Next, Guarded;
      var before := actions[..|actions| - 1];
      RunGuarded(w, before);
      RunSafe(w, before);
      NextGuarded(StartOf(w.session), Run(w, before), actions[|actions| - 1]);
    }
  }

  /**
   The lock is looked at, and the latch reached, only by an attempt that has read a context
   whose token is the well-formed one presented; and each request reaches the latch once.
   */
  lemma LooksAreAuthorized(w: World, actions: seq<Action>, i: nat)
    requires Initial(w) && i < |Run(w, actions).trace|
    ensures var w' := Run(w, actions);
            var e := w'.trace[i];
            && (e.Looked? ==> AdmittedBefore(w', e.request, e.attempt, i))
            && (e.Latched? ==> && AdmittedBefore(w', e.request, 1, i)
                               && forall j :: 0 <= j < |w'.trace| && w'.trace[j] == e ==> j == i)
  {
    RunGuarded(w, actions);
    var w' := Run(w, actions);
    if w'.trace[i].Latched? {
      assert LatchedAt(w', i, w'.trace[i].request);
      forall j | 0 <= j < |w'.trace| && w'.trace[j] == w'.trace[i] ensures j == i {
        assert LatchedAt(w', j, w'.trace[i].request);
      }
    }
  }

  // ----- Guarded effects -----

  function ActionsOf(w: World): Option<Document> {
    Get(w.session.store.history, ACTIONS)
  }

  predicate WritesNothing(a: Action) {
    a.Attempt? || a.ReadContext? || a.ReadLock? || a.Proceed? || a.Answer? || a.Fail?
  }

  lemma ReadingUntouched(start: Serial, w: World, a: Action, p: Path)
    requires Good(start, w.session) && WritesNothing(a) && a.request < |w.handlers|
    ensures Get(Next(w, a).session.store.history, p) == Get(w.session.store.history, p)
  {
    hide Serve, Read, Get, GetAt, ParseContext, Good;
    var h := w.handlers[a.request];
    if a.Attempt? {
      ServeUntouched(start, w.session, BeginTransaction(false, AtFirstUse, a.now), p);
      ServeUntouched(start, w.session, RetryTransaction(h.tx, a.now), p);
    } else if a.ReadContext? {
      ServeUntouched(start, w.session, GetDocument(h.tx, CONTEXT, a.now), p);
    } else if a.ReadLock? {
      ServeUntouched(start, w.session, GetDocument(h.tx, LOCK, a.now), p);
    }
  }

  lemma HandlerStepUntouched(start: Serial, w: World, a: Action, p: Path)
    requires Safe(start, w) && !a.Arrive? && !a.Others? && a.request < |w.handlers|
    ensures var w' := Next(w, a);
            || Get(w'.session.store.history, p) == Get(w.session.store.history, p)
            || (a.request < |w'.handlers| && HasAcquired(w'.handlers[a.request].phase))
  {
    hide Serve, Commit, Get, AcquireWrites, CountWrites, ReleaseWrites;
    if WritesNothing(a) {
      ReadingUntouched(start, w, a, p);
    } else if a.TryCommit? {
      CommitUnlessAcquires(start, w, a.request, a.givesUp, a.now, p);
    }
  }

  lemma CommitUnlessAcquires(start: Serial, w: World, r: nat, givesUp: bool, now: int, p: Path)
    requires Safe(start, w) && r < |w.handlers|
    ensures var w' := DoCommit(w, r, givesUp, now);
            || Get(w'.session.store.history, p) == Get(w.session.store.history, p)
            || (r < |w'.handlers| && HasAcquired(w'.handlers[r].phase))
  {
    hide Commit, Serve, Safe, Get, AcquireWrites;
    var h := w.handlers[r];
    if h.phase.Decided? || h.phase == Unauthorized {
      CommitShape(w, r, givesUp, now);
      if h.phase != Decided(true) || Commit(w.session.store, PendingWrites(h), Some(h.tx), now).1.Refused? {
        SafeIsGood(start, w);
        ServeUntouched(start, w.session, CommitWrites(PendingWrites(h), Some(h.tx), now), p);
      }
    }
  }

  lemma SafeIsGood(start: Serial, w: World)
    requires Safe(start, w)
    ensures Good(start, w.session)
  {
  }

  /** The lock or the actions document differs after the step. */
  predicate Affects(w: World, w': World) {
    LockOf(w') != LockOf(w) || ActionsOf(w') != ActionsOf(w)
  }

  lemma AffectedByHolder(start: Serial, w: World, a: Action)
    requires Safe(start, w) && Affects(w, Next(w, a))
    ensures !a.Arrive? && !a.Others? && a.request < |Next(w, a).handlers|
    ensures HasAcquired(Next(w, a).handlers[a.request].phase)
  {
    if a.Others? {
      if Foreign(w, a.step) {
        SafeIsGood(start, w);
        ServeUntouched(start, w.session, a.step, LOCK);
        ServeUntouched(start, w.session, a.step, ACTIONS);
      }
    } else if !a.Arrive? && a.request < |w.handlers| {
      HandlerStepUntouched(start, w, a, LOCK);
      HandlerStepUntouched(start, w, a, ACTIONS);
    }
  }

  /**
   Guarded effects: whenever a step of a run changes the lock or the actions document, it is
   a step of a request that acquired the lock while the context document held the very token
   it had presented, which is well formed.
   */
  lemma EffectsAreGuarded(w: World, actions: seq<Action>, a: Action)
    requires Initial(w) && Affects(Run(w, actions), Run(w, actions + [a]))
    ensures var w' := Run(w, actions + [a]);
            && !a.Arrive? && !a.Others? && a.request < |w'.handlers|
            && exists i :: && 0 <= i < |w'.trace| && w'.trace[i].Acquired? && w'.trace[i].request == a.request
                           && Configures(w'.trace[i].context, w'.handlers[a.request].presented)
  {
    hide Next;
    assert (actions + [a])[..|actions|] == actions;
    RunSafe(w, actions);
    AffectedByHolder(StartOf(w.session), Run(w, actions), a);
    RunOrderly(w, actions + [a]);
    var w' := Run(w, actions + [a]);
    assert InTrace(w', a.request);
    var i :| 0 <= i < |w'.trace| && w'.trace[i].Acquired? && w'.trace[i].request == a.request;
    PresentsIff(w'.handlers[a.request], w'.trace[i].context);
  }

  // ----- The counter -----

  predicate HasCounted(p: Phase) {
    p.Counted? || p == Stranded(true) || p.Released? || (p.Replied? && p.reply.Result? && p.reply.acquired)
  }

  function CountedBy(w: World): set<nat> {
    set r | 0 <= r < |w.handlers| && HasCounted(w.handlers[r].phase)
  }

  function AcquiredBy(w: World): set<nat> {
    set r | 0 <= r < |w.handlers| && HasAcquired(w.handlers[r].phase)
  }

  function Granted(w: World): set<nat> {
    set r | 0 <= r < |w.handlers| && w.handlers[r].phase.Replied? && Status(w.handlers[r].phase.reply) == 200
  }

  lemma CountingMoves(w: World, a: Action, r: nat)
    requires !Increments(w, a) && r < |Next(w, a).handlers|
    ensures HasCounted(Next(w, a).handlers[r].phase) <==> r < |w.handlers| && HasCounted(w.handlers[r].phase)
  {
    NextCarries(w, a);
    hide Serve, Commit, Read, ParseContext, AcquireWrites, CountWrites, ReleaseWrites;
  }

  /** Who has counted changes only by an increment that commits. */
  lemma CountingSteps(w: World, a: Action)
    requires !Increments(w, a)
    ensures CountedBy(Next(w, a)) == CountedBy(w)
  {
    NextCarries(w, a);
    hide Next, Increments;
    var w' := Next(w, a);
    forall r: nat ensures r in CountedBy(w') <==> r in CountedBy(w) {
      if r < |w'.handlers| { CountingMoves(w, a, r); }
    }
  }

  lemma ServeActionsUnlessDone(start: Serial, s: Session, writes: seq<Write>, own: Option<TxId>, now: int)
    requires Good(start, s)
    requires ACTIONS !in Written(writes) || Commit(s.store, writes, own, now).1.Refused?
    ensures Get(Serve(s, CommitWrites(writes, own, now)).store.history, ACTIONS) == Get(s.store.history, ACTIONS)
  {
    ServeUntouched(start, s, CommitWrites(writes, own, now), ACTIONS);
  }

  lemma CommitSparesActions(start: Serial, w: World, a: Action)
    requires Good(start, w.session) && (a.TryCommit? || a.Release?)
    ensures ActionsOf(Next(w, a)) == ActionsOf(w)
  {
    hide Serve, Commit, Get, Good;
    DistinctPaths();
    if a.request < |w.handlers| {
      var h := w.handlers[a.request];
      ServeActionsUnlessDone(start, w.session, PendingWrites(h), Some(h.tx), a.now);
      ServeActionsUnlessDone(start, w.session, ReleaseWrites(), None, a.now);
    }
  }

  predicate Increments(w: World, a: Action) {
    && a.Count? && a.request < |w.handlers| && w.handlers[a.request].phase == Holding
    && Commit(w.session.store, CountWrites(), None, a.now).1.Done?
  }

  lemma CountSparesActions(start: Serial, w: World, a: Action)
    requires Good(start, w.session) && a.Count? && !Increments(w, a)
    ensures ActionsOf(Next(w, a)) == ActionsOf(w)
  {
    if Commit(w.session.store, CountWrites(), None, a.now).1.Refused? {
      ServeActionsUnlessDone(start, w.session, CountWrites(), None, a.now);
    }
    hide Serve, Commit, Get, Good, CountWrites;
  }

  /** The actions document changes only by an increment that commits. */
  lemma ActionsSpared(start: Serial, w: World, a: Action)
    requires Safe(start, w) && !Increments(w, a)
    ensures ActionsOf(Next(w, a)) == ActionsOf(w)
  {
    SafeIsGood(start, w);
    if a.Others? {
      if Foreign(w, a.step) { ServeUntouched(start, w.session, a.step, ACTIONS); }
    } else if a.Count? {
      CountSparesActions(start, w, a);
    } else if a.Release? || a.TryCommit? {
      CommitSparesActions(start, w, a);
    } else if !a.Arrive? && a.request < |w.handlers| {
      ReadingUntouched(start, w, a, ACTIONS);
    }
  }

  lemma IncrementStep(w: World, a: Action)
    requires Increments(w, a)
    ensures CountedBy(Next(w, a)) == CountedBy(w) + {a.request} && a.request !in CountedBy(w)
    ensures Next(w, a).session.store == Commit(w.session.store, CountWrites(), None, a.now).0
  {
    ServedCommit(w.session, CountWrites(), None, a.now);
    hide Serve, Commit, CountWrites;
    var w' := Next(w, a);
    forall r: nat ensures r in CountedBy(w') <==> r in CountedBy(w) || r == a.request { }
  }

  /** The counter is the initial one plus the requests that have counted, saturating. */
  ghost predicate Tallied(initial: int, w: World) {
    CountOf(ActionsOf(w)) == Saturate(initial + |CountedBy(w)|)
  }

  lemma NextTallied(start: Serial, initial: int, w: World, a: Action)
    requires Safe(start, w) && Tallied(initial, w) && initial >= MIN_INT64
    ensures Tallied(initial, Next(w, a))
  {
    if Increments(w, a) {
      IncrementStep(w, a);
      CountEffect(w.session.store, a.now);
      hide Next, Commit, CountWrites;
    } else {
      ActionsSpared(start, w, a);
      CountingSteps(w, a);
      hide Next, Commit, CountWrites;
    }
  }

  lemma {:induction false} RunTallied(w: World, actions: seq<Action>)
    requires Initial(w) && MIN_INT64 <= CountOf(ActionsOf(w)) <= MAX_INT64
    ensures Tallied(CountOf(ActionsOf(w)), Run(w, actions))
  {
    if actions == [] {
      assert CountedBy(w) == {};
    } else {
      hide Next;
      var before := actions[..|actions| - 1];
      RunTallied(w, before);
      RunSafe(w, before);
      NextTallied(StartOf(w.session), CountOf(ActionsOf(w)), Run(w, before), actions[|actions| - 1]);
    }
  }

  predicate NobodyStranded(w: World) {
    forall r :: 0 <= r < |w.handlers| ==> !w.handlers[r].phase.Stranded?
  }

  predicate Quiescent(w: World) {
    forall r :: 0 <= r < |w.handlers| ==> w.handlers[r].phase.Replied? || w.handlers[r].phase.Thrown?
  }

  /** A holder about to release is the last of the acquisitions to have counted. */
  lemma AtRelease(w: World, r: nat)
    requires Exclusive(w) && NobodyStranded(w) && r < |w.handlers| && w.handlers[r].phase == Counted
    ensures AcquiredBy(w) == CountedBy(w)
  {
    assert Holds(w, r);
    forall q: nat ensures q in AcquiredBy(w) <==> q in CountedBy(w) {
      if q in AcquiredBy(w) && IsHolder(w.handlers[q].phase) { assert Holds(w, q); }
    }
  }

  lemma AtQuiescence(w: World)
    requires Quiescent(w)
    ensures CountedBy(w) == Granted(w)
  {
    forall q: nat ensures q in CountedBy(w) <==> q in Granted(w) { }
  }

  /**
   Conservation, over every run: the counter has moved by the requests past their increment;
   unless a handler was stranded, when a holder is about to release that is every acquisition
   so far, and when all requests have ended it is the number of 200 answers.
   */
  lemma CounterConserved(w: World, actions: seq<Action>)
    requires Initial(w) && MIN_INT64 <= CountOf(ActionsOf(w)) <= MAX_INT64
    ensures var w' := Run(w, actions);
            var n := CountOf(ActionsOf(w));
            && CountOf(ActionsOf(w')) == Saturate(n + |CountedBy(w')|)
            && (NobodyStranded(w') && (exists r :: 0 <= r < |w'.handlers| && w'.handlers[r].phase == Counted) ==>
                  CountOf(ActionsOf(w')) == Saturate(n + |AcquiredBy(w')|))
            && (Quiescent(w') ==> CountOf(ActionsOf(w')) == Saturate(n + |Granted(w')|))
  {
    hide Run, CountedBy, AcquiredBy, Granted, CountOf, Saturate, ActionsOf, Attempts, StampedAlways, Exclusive;
    RunTallied(w, actions);
    RunSafe(w, actions);
    var w' := Run(w, actions);
    if r :| NobodyStranded(w') && 0 <= r < |w'.handlers| && w'.handlers[r].phase == Counted { AtRelease(w', r); }
    if Quiescent(w') { AtQuiescence(w'); }
  }
}
