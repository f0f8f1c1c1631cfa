/**
 Mutual exclusion and the shape of the lock document, kept by every action of every handler
 and by everything the other clients do.
 */
module LockSafety {
  import opened Common
  import opened Store
  import opened Sessions
  import opened Serializability
  import opened LockAuth
  import opened LockProtocol
  import opened LockEffects
  import opened LockAttempts

  /** Between the acquire commit and the release, running or not. */
  predicate IsHolder(p: Phase) {
    p.Holding? || p.Counted? || p.Stranded?
  }

  predicate Holds(w: World, r: int) {
    0 <= r < |w.handlers| && IsHolder(w.handlers[r].phase)
  }

  function LockOf(w: World): Option<Document> {
    Get(w.session.store.history, LOCK)
  }

  ghost predicate Exclusive(w: World) {
    && (forall q, r :: Holds(w, q) && Holds(w, r) ==> q == r)
    && (forall r :: Holds(w, r) ==>
          Locked(LockOf(w)) && Field(LockOf(w).value.fields, "owner") == Integer(w.handlers[r].participant))
    && (Locked(LockOf(w)) ==> exists r :: Holds(w, r))
  }

  /** A locked document carries the one commit time twice. */
  predicate Stamped(lock: Option<Document>) {
    Locked(lock) ==>
      && Field(lock.value.fields, "startedAt").Timestamp?
      && Field(lock.value.fields, "updatedAt") == Field(lock.value.fields, "startedAt")
  }

  ghost predicate StampedAlways(start: Serial, w: World) {
    forall v: nat :: start.version <= v && w.session.store.floor <= v ==>
      Stamped(GetAt(w.session.store.history, LOCK, v))
  }

  ghost predicate Safe(start: Serial, w: World) {
    Attempts(start, w) && Exclusive(w) && StampedAlways(start, w)
  }

  // ----- Composing a step -----

  /** The other handlers are where they were, and so are their transactions. */
  ghost predicate Alone(w: World, w': World, r: nat) {
    && |w.handlers| == |w'.handlers| && r < |w.handlers|
    && forall q :: 0 <= q < |w.handlers| && q != r ==>
         && w'.handlers[q] == w.handlers[q]
         && (w.handlers[q].attempts > 0 ==>
               SameKind(w.session, w'.session, w.handlers[q].tx) && Spared(w.session, w'.session, w.handlers[q].tx))
  }

  lemma AttemptsStep(start: Serial, w: World, w': World, r: nat)
    requires Attempts(start, w) && Good(start, w'.session) && Onward(w, w') && Alone(w, w', r)
    requires AttemptOk(start, w', r)
    requires w'.handlers[r].attempts > 0 ==>
               || (w'.handlers[r].tx == w.handlers[r].tx && w.handlers[r].attempts > 0)
               || w.session.store.nextTx < w'.handlers[r].tx
    ensures Attempts(start, w')
  {
    forall q | 0 <= q < |w'.handlers| ensures AttemptOk(start, w', q) {
      if q != r { BystanderOk(start, w, w', q); }
    }
    forall q | 0 <= q < |w.handlers| && w.handlers[q].attempts > 0 ensures w.handlers[q].tx <= w.session.store.nextTx {
      assert AttemptOk(start, w, q);
    }
  }

  /** Nobody acquires or releases, and the lock document is not touched. */
  ghost predicate Calm(w: World, w': World) {
    && Untouched(w.session.store, w'.session.store, LOCK)
    && |w.handlers| <= |w'.handlers|
    && (forall q :: Holds(w', q) <==> Holds(w, q))
    && (forall q :: Holds(w, q) ==> w'.handlers[q].participant == w.handlers[q].participant)
    && |w.trace| <= |w'.trace| && w'.trace[..|w.trace|] == w.trace
    && (forall k :: |w.trace| <= k < |w'.trace| ==> !LockChange(w'.trace[k]))
  }

  lemma CalmStep(start: Serial, w: World, w': World)
    requires Exclusive(w) && StampedAlways(start, w) && Calm(w, w')
    ensures Exclusive(w') && StampedAlways(start, w') && Onward(w, w')
  {
  }

  lemma SparedByServe(start: Serial, w: World, request: Sessions.Request, q: nat)
    requires Attempts(start, w) && q < |w.handlers| && w.handlers[q].attempts > 0
    requires !Concerns(request, w.handlers[q].tx)
    ensures SameKind(w.session, Serve(w.session, request), w.handlers[q].tx)
    ensures Spared(w.session, Serve(w.session, request), w.handlers[q].tx)
  {
    assert AttemptOk(start, w, q);
    ServeSpares(w.session, request, w.handlers[q].tx);
  }

  /** A request on the transaction of `r`, or on none, leaves the other handlers alone. */
  lemma ServeAlone(start: Serial, w: World, w': World, r: nat, request: Sessions.Request)
    requires Attempts(start, w) && r < |w.handlers| && w'.session == Serve(w.session, request)
    requires |w'.handlers| == |w.handlers|
    requires forall q :: 0 <= q < |w.handlers| && q != r ==> w'.handlers[q] == w.handlers[q]
    requires forall id :: Concerns(request, id) ==> w.handlers[r].attempts > 0 && id == w.handlers[r].tx
    ensures Alone(w, w', r)
  {
    forall q | 0 <= q < |w.handlers| && q != r && w.handlers[q].attempts > 0
      ensures SameKind(w.session, w'.session, w.handlers[q].tx) && Spared(w.session, w'.session, w.handlers[q].tx)
    {
      SparedByServe(start, w, request, q);
    }
  }

  /** A handler that moves on without the store. */
  lemma IdleStep(start: Serial, w: World, w': World, r: nat)
    requires Safe(start, w) && r < |w.handlers| && w'.session == w.session
    requires |w'.handlers| == |w.handlers|
    requires forall q :: 0 <= q < |w.handlers| && q != r ==> w'.handlers[q] == w.handlers[q]
    requires w'.handlers[r].attempts == w.handlers[r].attempts && w'.handlers[r].tx == w.handlers[r].tx
    requires w'.handlers[r].participant == w.handlers[r].participant
    requires IsHolder(w'.handlers[r].phase) == IsHolder(w.handlers[r].phase)
    requires w'.trace == w.trace || w'.trace == w.trace + [Latched(r)]
    requires Onward(w, w') && AttemptOk(start, w, r) ==> AttemptOk(start, w', r)
    ensures Safe(start, w') && Onward(w, w')
  {
    hide Good, Exclusive, StampedAlways;
    assert Calm(w, w');
    CalmStep(start, w, w');
    assert AttemptOk(start, w, r);
    forall q | 0 <= q < |w.handlers| && q != r && w.handlers[q].attempts > 0
      ensures SameKind(w.session, w'.session, w.handlers[q].tx)
    {
      assert AttemptOk(start, w, q);
    }
    AttemptsStep(start, w, w', r);
  }

  // ----- The actions -----

  lemma ArriveSafe(start: Serial, w: World, participant: Option<int>, header: Option<string>)
    requires Safe(start, w)
    ensures Safe(start, DoArrive(w, participant, header)) && Onward(w, DoArrive(w, participant, header))
  {
    var w' := DoArrive(w, participant, header);
    assert Calm(w, w');
    CalmStep(start, w, w');
    forall q | 0 <= q < |w'.handlers| ensures AttemptOk(start, w', q) {
      if q < |w.handlers| {
        assert AttemptOk(start, w, q);
        BystanderOk(start, w, w', q);
      }
    }
  }

  lemma VerdictRemembers(h: Handler, seen: map<Path, Option<Document>>)
    requires h.phase.Observed? && Remembers(h, seen)
    ensures Remembers(h.(phase := Verdict(h.phase.lock)), seen)
  {
    hide ParseContext, TokenMatches;
  }

  lemma ProceedSnapshot(start: Serial, w: World, w': World, r: nat)
    requires r < |w.handlers| == |w'.handlers| && w'.session == w.session && Onward(w, w')
    requires w'.handlers[r] == w.handlers[r].(phase := w'.handlers[r].phase)
    requires w.handlers[r].tx in w.session.store.txs && SnapshotTaken(start, w, r)
    requires w.session.store.txs[w.handlers[r].tx].readVersion <= w.session.store.version
    ensures SnapshotTaken(start, w', r)
  {
    OutdatedStays(w, w', w.handlers[r], w.session.store.txs[w.handlers[r].tx].readVersion);
  }

  lemma ProceedOk(start: Serial, w: World, w': World, r: nat)
    requires Safe(start, w) && r < |w.handlers| == |w'.handlers| && w'.session == w.session && Onward(w, w')
    requires w.handlers[r].phase.Observed?
    requires w'.handlers[r] == w.handlers[r].(phase := Verdict(w.handlers[r].phase.lock))
    ensures AttemptOk(start, w', r)
  {
    hide Exclusive, StampedAlways, OwnTransactions, GoodLog, Onward, SnapshotTaken, Remembers;
    var h := w.handlers[r];
    assert AttemptOk(start, w, r);
    if Usable(w.session.store, h.tx) {
      assert GoodTransaction(w.session.store, SeenBy(w.session, h.tx), h.tx);
      VerdictRemembers(h, SeenBy(w.session, h.tx));
      ProceedSnapshot(start, w, w', r);
    }
  }

  lemma ProceedSafe(start: Serial, w: World, r: nat, latchOpens: bool)
    requires Safe(start, w) && r < |w.handlers|
    ensures Safe(start, DoProceed(w, r, latchOpens)) && Onward(w, DoProceed(w, r, latchOpens))
  {
    var w' := DoProceed(w, r, latchOpens);
    var h := w.handlers[r];
    if h.phase.Observed? {
      if Onward(w, w') && w'.handlers[r].phase == Verdict(h.phase.lock) { ProceedOk(start, w, w', r); }
      IdleStep(start, w, w', r);
    }
  }

  lemma AnswerSafe(start: Serial, w: World, r: nat)
    requires Safe(start, w) && r < |w.handlers|
    ensures Safe(start, DoAnswer(w, r)) && Onward(w, DoAnswer(w, r))
  {
    var w' := DoAnswer(w, r);
    if w' != w { IdleStep(start, w, w', r); }
  }

  lemma FailSafe(start: Serial, w: World, r: nat)
    requires Safe(start, w) && r < |w.handlers|
    ensures Safe(start, DoFail(w, r)) && Onward(w, DoFail(w, r))
  {
    hide Good, Exclusive, StampedAlways, Remembers, SnapshotTaken, OwnTransactions;
    var w' := DoFail(w, r);
    if w' != w { IdleStep(start, w, w', r); }
  }

  lemma OthersSafe(start: Serial, w: World, step: Sessions.Request)
    requires Safe(start, w) && Foreign(w, step)
    ensures Safe(start, w.(session := Serve(w.session, step))) && Onward(w, w.(session := Serve(w.session, step)))
  {
    var w' := w.(session := Serve(w.session, step));
    ServeGood(start, w.session, step);
    ServeUntouched(start, w.session, step, LOCK);
    assert Calm(w, w');
    CalmStep(start, w, w');
    forall q | 0 <= q < |w.handlers| ensures AttemptOk(start, w', q) {
      if w.handlers[q].attempts > 0 {
        assert Owned(w, w.handlers[q].tx);
        SparedByServe(start, w, step, q);
      }
      BystanderOk(start, w, w', q);
    }
  }

  /** A new transaction for the handler `r`. */
  lemma NewAttempt(start: Serial, w: World, w': World, r: nat)
    requires Safe(start, w) && Good(start, w'.session) && r < |w.handlers| && Alone(w, w', r)
    requires !IsHolder(w.handlers[r].phase) && w'.handlers[r].phase == Begun && w'.handlers[r].attempts > 0
    requires w'.trace == w.trace && Untouched(w.session.store, w'.session.store, LOCK)
    requires w'.handlers[r].tx == w'.session.store.nextTx && w.session.store.nextTx < w'.session.store.nextTx
    requires w'.session.seen == w.session.seen
    requires var st := w'.session.store;
             st.nextTx in st.txs && st.txs[st.nextTx].snapshotPending && !st.txs[st.nextTx].readOnly
    ensures Safe(start, w') && Onward(w, w')
  {
    assert Calm(w, w');
    CalmStep(start, w, w');
    assert w'.session.store.nextTx !in w.session.seen;
    AttemptsStep(start, w, w', r);
  }

  lemma FirstAttemptSafe(start: Serial, w: World, r: nat, now: int)
    requires Safe(start, w) && r < |w.handlers| && w.handlers[r].phase == Ready
    ensures Safe(start, DoAttempt(w, r, now)) && Onward(w, DoAttempt(w, r, now))
  {
    var w' := DoAttempt(w, r, now);
    var request := BeginTransaction(false, AtFirstUse, now);
    ServeGood(start, w.session, request);
    ServeUntouched(start, w.session, request, LOCK);
    ServeAlone(start, w, w', r, request);
    NewAttempt(start, w, w', r);
  }

  lemma RetriedShape(w: World, r: nat, now: int)
    requires r < |w.handlers| && w.handlers[r].phase == Aborted
    ensures var h := w.handlers[r];
            var w' := DoAttempt(w, r, now);
            var st := w'.session.store;
            && w' == w.(session := Serve(w.session, RetryTransaction(h.tx, now)),
                        handlers := w.handlers[r := w'.handlers[r]])
            && w'.session.seen == w.session.seen
            && (|| w'.handlers[r] == h.(phase := Thrown(StoreFailure))
                || (&& w'.handlers[r] == h.(attempts := h.attempts + 1, tx := st.nextTx, phase := Begun)
                    && w.session.store.nextTx < st.nextTx && st.nextTx in st.txs
                    && st.txs[st.nextTx].snapshotPending && !st.txs[st.nextTx].readOnly))
  {
  }

  lemma RetriedAttemptSafe(start: Serial, w: World, r: nat, now: int)
    requires Safe(start, w) && r < |w.handlers| && w.handlers[r].phase == Aborted
    ensures Safe(start, DoAttempt(w, r, now)) && Onward(w, DoAttempt(w, r, now))
  {
    hide DoAttempt, Serve;
    var w' := DoAttempt(w, r, now);
    var request := RetryTransaction(w.handlers[r].tx, now);
    assert AttemptOk(start, w, r);
    RetriedShape(w, r, now);
    ServeGood(start, w.session, request);
    ServeUntouched(start, w.session, request, LOCK);
    ServeAlone(start, w, w', r, request);
    if w'.handlers[r].phase == Begun {
      NewAttempt(start, w, w', r);
    } else {
      GivenUpSafe(start, w, w', r, request);
    }
  }

  lemma GivenUpSafe(start: Serial, w: World, w': World, r: nat, request: Sessions.Request)
    requires Safe(start, w) && r < |w.handlers| && request.RetryTransaction? && request.previous == w.handlers[r].tx
    requires w' == w.(session := Serve(w.session, request),
                      handlers := w.handlers[r := w.handlers[r].(phase := Thrown(StoreFailure))])
    requires Alone(w, w', r) && Good(start, w'.session) && w.handlers[r].attempts > 0
    requires Untouched(w.session.store, w'.session.store, LOCK) && w.handlers[r].phase == Aborted
    ensures Safe(start, w') && Onward(w, w')
  {
    hide Good, Exclusive, StampedAlways, Untouched;
    OwnKind(start, w, r);
    RetryKeepsKind(w.session.store, w.handlers[r].tx, request.now);
    LeftAttempt(start, w', r);
    assert Calm(w, w');
    CalmStep(start, w, w');
    AttemptsStep(start, w, w', r);
  }

  lemma RetryKeepsKind(s: Store, previous: TxId, now: int)
    requires previous in s.txs && previous <= s.nextTx
    ensures var s' := Retry(s, previous, now).0;
            previous in s'.txs && s'.txs[previous].readOnly == s.txs[previous].readOnly
  {
    if Retry(s, previous, now).1.Ok? {
      ConsumeKeeps(s, previous);
      assert KeptAt(s, Consume(s, previous), previous);
    }
  }

  // ----- A step of one handler on the store that leaves the lock document alone -----

  /** The shape of such a step; `request` may concern the handler's own transaction only. */
  ghost predicate OwnStep(w: World, w': World, r: nat, request: Sessions.Request) {
    && r < |w.handlers| == |w'.handlers|
    && w'.session == Serve(w.session, request)
    && (forall q :: 0 <= q < |w.handlers| && q != r ==> w'.handlers[q] == w.handlers[q])
    && (forall id :: Concerns(request, id) ==> w.handlers[r].attempts > 0 && id == w.handlers[r].tx)
    && w'.handlers[r].attempts == w.handlers[r].attempts && w'.handlers[r].tx == w.handlers[r].tx
    && w'.handlers[r].participant == w.handlers[r].participant
    && IsHolder(w'.handlers[r].phase) == IsHolder(w.handlers[r].phase)
    && (w'.trace == w.trace || exists e :: w'.trace == w.trace + [e] && !LockChange(e))
  }

  lemma OwnStepCalm(start: Serial, w: World, w': World, r: nat, request: Sessions.Request)
    requires Safe(start, w) && OwnStep(w, w', r, request)
    requires Untouched(w.session.store, w'.session.store, LOCK)
    ensures Exclusive(w') && StampedAlways(start, w') && Onward(w, w')
  {
    hide Serve, Attempts, Exclusive, StampedAlways, Onward, Untouched;
    assert Calm(w, w');
    CalmStep(start, w, w');
  }

  lemma OwnStepSafe(start: Serial, w: World, w': World, r: nat, request: Sessions.Request)
    requires Safe(start, w) && OwnStep(w, w', r, request) && AttemptOk(start, w', r)
    requires Untouched(w.session.store, w'.session.store, LOCK)
    ensures Safe(start, w') && Onward(w, w')
  {
    OwnStepCalm(start, w, w', r, request);
    ServeGood(start, w.session, request);
    ServeAlone(start, w, w', r, request);
    AttemptsStep(start, w, w', r);
  }

  /** The handler's transaction stays the handler's. */
  lemma OwnKind(start: Serial, w: World, r: nat)
    requires Attempts(start, w) && r < |w.handlers| && w.handlers[r].attempts > 0
    ensures var id := w.handlers[r].tx;
            && id in w.session.store.txs && !w.session.store.txs[id].readOnly
            && id <= w.session.store.nextTx
  {
    assert AttemptOk(start, w, r);
  }

  lemma HasAttempted(start: Serial, w: World, r: nat)
    requires Attempts(start, w) && r < |w.handlers|
    requires !w.handlers[r].phase.Ready? && !w.handlers[r].phase.Replied? && !w.handlers[r].phase.Thrown?
    ensures w.handlers[r].attempts > 0 && GoodHistory(w.session.store.history, w.session.store.version)
  {
    assert AttemptOk(start, w, r);
  }

  /** Out of its attempt a handler has nothing to remember. */
  lemma LeftAttempt(start: Serial, w': World, r: nat)
    requires r < |w'.handlers| && !InAttempt(w'.handlers[r].phase) && w'.handlers[r].phase != Ready
    requires w'.handlers[r].attempts > 0 && w'.handlers[r].tx in w'.session.store.txs
    requires !w'.session.store.txs[w'.handlers[r].tx].readOnly
    ensures AttemptOk(start, w', r)
  {
  }

  // ----- Reads -----

  /** A served read pins the snapshot and adds the document to what the transaction was told. */
  lemma ServedRead(s: Session, id: TxId, p: Path, now: int)
    requires id in s.store.txs
    ensures var s' := Serve(s, GetDocument(id, p, now));
            var got := Read(s.store, id, p, now).1;
            && SameData(s.store, s'.store) && SameKind(s, s', id)
            && (got.Ok? ==>
                  && Usable(s.store, id) && Usable(s'.store, id)
                  && SeenBy(s', id) == SeenBy(s, id)[p := got.value]
                  && !s'.store.txs[id].snapshotPending
                  && s'.store.txs[id].readVersion ==
                       (if s.store.txs[id].snapshotPending then s.store.version else s.store.txs[id].readVersion))
  {
    hide Touch, ServeRead, Get, GetAt, Read;
    TouchedAs(s.store, id, now);
    TouchKnown(s.store, id, now);
    ReadShape(s, id, p, now);
    ReadAnswer(s.store, id, p, now);
  }

  lemma TouchedAs(s: Store, id: TxId, now: int)
    requires id in s.txs
    ensures var st := Touch(s, id, now);
            && id in st.txs && (Usable(st, id) ==> Usable(s, id)) && st.txs[id].readOnly == s.txs[id].readOnly
            && (Usable(s, id) ==>
                  st.txs[id].readVersion == if s.txs[id].snapshotPending then s.version else s.txs[id].readVersion)
  {
  }

  lemma ReadAnswer(s: Store, id: TxId, p: Path, now: int)
    ensures var st := Touch(s, id, now);
            var got := Read(s, id, p, now).1;
            if Usable(st, id) then got == Ok(GetAt(st.history, p, st.txs[id].readVersion)) else got.Err?
  {
    hide Touch, GetAt;
  }

  lemma FirstReadOk(start: Serial, w': World, h: Handler, r: nat, at: nat, context: Option<Document>)
    requires r < |w'.handlers| && h.attempts > 0
    requires w'.handlers[r] == h.(snapshotAt := at, phase := ContextVerdict(h.presented, context))
    requires |w'.trace| == at + 1 && w'.trace[at] == Snapshot(r, h.attempts, context)
    requires h.tx in w'.session.store.txs && SeenBy(w'.session, h.tx) == map[CONTEXT := context]
    requires var t := w'.session.store.txs[h.tx]; !t.snapshotPending && !t.readOnly && t.readVersion >= start.version
    ensures AttemptOk(start, w', r)
  {
  }

  lemma ReadContextOk(start: Serial, w: World, r: nat, now: int)
    requires Safe(start, w) && r < |w.handlers| && w.handlers[r].phase == Begun
    ensures AttemptOk(start, DoReadContext(w, r, now), r)
  {
    var h := w.handlers[r];
    var w' := DoReadContext(w, r, now);
    assert AttemptOk(start, w, r);
    ServedRead(w.session, h.tx, CONTEXT, now);
    var got := Read(w.session.store, h.tx, CONTEXT, now).1;
    if got.Ok? {
      FirstReadOk(start, w', h, r, |w.trace|, got.value);
    } else {
      LeftAttempt(start, w', r);
    }
  }

  lemma ReadContextShape(w: World, r: nat, now: int)
    requires r < |w.handlers| && w.handlers[r].phase == Begun && w.handlers[r].attempts > 0
    ensures OwnStep(w, DoReadContext(w, r, now), r, GetDocument(w.handlers[r].tx, CONTEXT, now))
  {
  }

  lemma ReadContextSafe(start: Serial, w: World, r: nat, now: int)
    requires Safe(start, w) && r < |w.handlers|
    ensures Safe(start, DoReadContext(w, r, now)) && Onward(w, DoReadContext(w, r, now))
  {
    if w.handlers[r].phase == Begun {
      var request := GetDocument(w.handlers[r].tx, CONTEXT, now);
      assert AttemptOk(start, w, r);
      ReadContextOk(start, w, r, now);
      ReadContextShape(w, r, now);
      ServeUntouched(start, w.session, request, LOCK);
      OwnStepSafe(start, w, DoReadContext(w, r, now), r, request);
    }
  }

  lemma SecondReadOk(start: Serial, w: World, w': World, r: nat, lock: Document)
    requires Safe(start, w) && r < |w.handlers| == |w'.handlers| && w.handlers[r].phase.Authorized?
    requires Onward(w, w')
    requires w'.handlers[r] == Observing(w.handlers[r], w.handlers[r].phase.config, lock)
    requires var id := w.handlers[r].tx;
             && Usable(w.session.store, id) && SameKind(w.session, w'.session, id)
             && SeenBy(w'.session, id) == SeenBy(w.session, id)[LOCK := Some(lock)]
             && w'.session.store.txs[id].snapshotPending == w.session.store.txs[id].snapshotPending
             && w'.session.store.txs[id].readVersion == w.session.store.txs[id].readVersion
    ensures AttemptOk(start, w', r)
  {
    hide Exclusive, StampedAlways, OwnTransactions, GoodLog, GoodHistory, ParseContext, TokenMatches;
    var h := w.handlers[r];
    DistinctPaths();
    assert AttemptOk(start, w, r);
    assert GoodTransaction(w.session.store, SeenBy(w.session, h.tx), h.tx);
    OutdatedStays(w, w', h, w.session.store.txs[h.tx].readVersion);
  }

  lemma ReadLockOk(start: Serial, w: World, r: nat, now: int)
    requires Safe(start, w) && r < |w.handlers| && w.handlers[r].phase.Authorized?
    requires Onward(w, DoReadLock(w, r, now))
    ensures AttemptOk(start, DoReadLock(w, r, now), r)
  {
    hide Exclusive, StampedAlways, OwnTransactions, Good, Onward;
    var h := w.handlers[r];
    var w' := DoReadLock(w, r, now);
    assert AttemptOk(start, w, r);
    ServedRead(w.session, h.tx, LOCK, now);
    var got := Read(w.session.store, h.tx, LOCK, now).1;
    if got.Ok? && got.value.Some? {
      SecondReadOk(start, w, w', r, got.value.value);
    } else {
      LeftAttempt(start, w', r);
    }
  }

  lemma ReadLockShape(w: World, r: nat, now: int)
    requires r < |w.handlers| && w.handlers[r].phase.Authorized? && w.handlers[r].attempts > 0
    ensures OwnStep(w, DoReadLock(w, r, now), r, GetDocument(w.handlers[r].tx, LOCK, now))
  {
  }

  lemma ReadLockSafe(start: Serial, w: World, r: nat, now: int)
    requires Safe(start, w) && r < |w.handlers|
    ensures Safe(start, DoReadLock(w, r, now)) && Onward(w, DoReadLock(w, r, now))
  {
    if w.handlers[r].phase.Authorized? {
      var w' := DoReadLock(w, r, now);
      var request := GetDocument(w.handlers[r].tx, LOCK, now);
      assert AttemptOk(start, w, r);
      ReadLockShape(w, r, now);
      ServeUntouched(start, w.session, request, LOCK);
      OwnStepCalm(start, w, w', r, request);
      ReadLockOk(start, w, r, now);
      OwnStepSafe(start, w, w', r, request);
    }
  }

  // ----- Commits -----

  /** Nothing happened to any handler, and nothing to the lock. */
  lemma SparedStep(start: Serial, w: World, w': World)
    requires Safe(start, w) && Good(start, w'.session) && Calm(w, w') && w'.handlers == w.handlers
    requires forall q :: 0 <= q < |w.handlers| && w.handlers[q].attempts > 0 ==>
               SameKind(w.session, w'.session, w.handlers[q].tx) && Spared(w.session, w'.session, w.handlers[q].tx)
    ensures Safe(start, w') && Onward(w, w')
  {
    CalmStep(start, w, w');
    forall q | 0 <= q < |w.handlers| ensures AttemptOk(start, w', q) { BystanderOk(start, w, w', q); }
  }

  /** A commit held back by locks changes nothing for anyone. */
  lemma HeldBackSafe(start: Serial, w: World, writes: seq<Write>, own: Option<TxId>, now: int)
    requires Safe(start, w) && Commit(w.session.store, writes, own, now).1.Refused?
    ensures Safe(start, w.(session := Serve(w.session, CommitWrites(writes, own, now)))) &&
            Onward(w, w.(session := Serve(w.session, CommitWrites(writes, own, now))))
  {
    var request := CommitWrites(writes, own, now);
    var w' := w.(session := Serve(w.session, request));
    ServeGood(start, w.session, request);
    ServeUntouched(start, w.session, request, LOCK);
    forall q | 0 <= q < |w.handlers| && w.handlers[q].attempts > 0
      ensures SameKind(w.session, w'.session, w.handlers[q].tx) && Spared(w.session, w'.session, w.handlers[q].tx)
    {
      assert AttemptOk(start, w, q);
      CommitSpares(w.session, writes, own, now, w.handlers[q].tx);
    }
    assert Calm(w, w');
    SparedStep(start, w, w');
  }

  lemma ServedCommit(s: Session, writes: seq<Write>, own: Option<TxId>, now: int)
    ensures Serve(s, CommitWrites(writes, own, now)).store == Commit(s.store, writes, own, now).0
  {
  }

  lemma CommitKeepsKind(s: Session, writes: seq<Write>, own: Option<TxId>, now: int, id: TxId)
    requires id in s.store.txs
    ensures SameKind(s, Serve(s, CommitWrites(writes, own, now)), id)
  {
    var (st, o) := Commit(s.store, writes, own, now);
    if o.Refused? {
      RefusedKeeps(s.store, writes, own, now);
    } else {
      DoneExtends(s.store, writes, own, now, LogEntry(map[], [], writes, o.time));
    }
    assert KeptAt(s.store, st, id);
  }

  /** A commit that leaves the lock alone and takes the handler out of its attempt. */
  lemma LeavingCommitSafe(start: Serial, w: World, r: nat, writes: seq<Write>, own: Option<TxId>, now: int,
                          phase: Phase)
    requires Safe(start, w) && r < |w.handlers| && w.handlers[r].attempts > 0
    requires own.Some? ==> own.value == w.handlers[r].tx
    requires LOCK !in Written(writes) || Commit(w.session.store, writes, own, now).1.Refused?
    requires !InAttempt(phase) && phase != Ready && IsHolder(phase) == IsHolder(w.handlers[r].phase)
    ensures Safe(start, Enter(w.(session := Serve(w.session, CommitWrites(writes, own, now))), r, phase)) &&
            Onward(w, Enter(w.(session := Serve(w.session, CommitWrites(writes, own, now))), r, phase))
  {
    var request := CommitWrites(writes, own, now);
    var w' := Enter(w.(session := Serve(w.session, request)), r, phase);
    OwnKind(start, w, r);
    CommitKeepsKind(w.session, writes, own, now, w.handlers[r].tx);
    LeftAttempt(start, w', r);
    ServeUntouched(start, w.session, request, LOCK);
    OwnStepSafe(start, w, w', r, request);
  }

  /** An acquire that commits had read the lock as it is, and it is free. */
  lemma AcquireFindsUnlocked(start: Serial, w: World, r: nat, now: int)
    requires Safe(start, w) && r < |w.handlers| && w.handlers[r].phase.Decided?
    requires Commit(w.session.store, PendingWrites(w.handlers[r]), Some(w.handlers[r].tx), now).1.Done?
    ensures Usable(w.session.store, w.handlers[r].tx)
    ensures LockOf(w).Some? && Locked(LockOf(w)) == !w.handlers[r].phase.acquired
    ensures Presents(w.handlers[r], Get(w.session.store.history, CONTEXT))
    ensures Configures(Get(w.session.store.history, CONTEXT), w.handlers[r].presented)
    ensures var seen := SeenBy(w.session, w.handlers[r].tx); LOCK in seen && seen[LOCK] == LockOf(w)
    ensures LockOf(w).value.version == w.handlers[r].lockVersion
  {
    var h := w.handlers[r];
    assert AttemptOk(start, w, r);
    AcceptedReadsAreCurrent(start, w.session, PendingWrites(h), h.tx, now);
    CurrentIsLatest(w.session.store.history, LOCK);
    CurrentIsLatest(w.session.store.history, CONTEXT);
    PresentsIff(h, Get(w.session.store.history, CONTEXT));
  }

  /** The lock document changes hands under a new version. */
  ghost predicate Turned(w: World, w': World) {
    && w'.session.store.version == w.session.store.version + 1
    && w'.session.store.floor == w.session.store.floor
    && LockOf(w').Some? && LockOf(w').value.version == w.session.store.version + 1 && Stamped(LockOf(w'))
    && forall v: nat :: GetAt(w'.session.store.history, LOCK, v) ==
         if v <= w.session.store.version then GetAt(w.session.store.history, LOCK, v) else LockOf(w')
  }

  lemma TurnedByCommit(w: World, w': World, writes: seq<Write>, own: Option<TxId>, now: int)
    requires GoodHistory(w.session.store.history, w.session.store.version)
    requires Commit(w.session.store, writes, own, now).1.Done?
    requires w'.session == Serve(w.session, CommitWrites(writes, own, now))
    requires w'.session.store.version == w.session.store.version + 1
    requires LockOf(w').Some? && LockOf(w').value.version == w.session.store.version + 1 && Stamped(LockOf(w'))
    ensures Turned(w, w')
  {
    hide Commit, GetAt, Get, GoodHistory, Stamped;
    forall v: nat ensures GetAt(w'.session.store.history, LOCK, v) ==
      if v <= w.session.store.version then GetAt(w.session.store.history, LOCK, v) else LockOf(w')
    {
      CommitHistory(w.session.store, writes, own, now, LOCK, v);
    }
    CommitHistory(w.session.store, writes, own, now, LOCK, 0);
  }

  lemma TurnedStep(start: Serial, w: World, w': World, e: Event)
    requires StampedAlways(start, w) && Turned(w, w') && w'.trace == w.trace + [e] && LockChange(e)
    ensures StampedAlways(start, w') && Onward(w, w')
  {
    assert w'.trace[|w.trace|] == e;
  }

  function AcquiredEvent(w: World, r: nat): Event
    requires r < |w.handlers|
  {
    Acquired(r, w.handlers[r].attempts, if LockOf(w).Some? then LockOf(w).value.version else 0,
             Get(w.session.store.history, CONTEXT))
  }

  /** The three ways a commit of the attempt goes on. */
  lemma CommitShape(w: World, r: nat, givesUp: bool, now: int)
    requires r < |w.handlers| && (w.handlers[r].phase.Decided? || w.handlers[r].phase == Unauthorized)
    ensures var h := w.handlers[r];
            var o := Commit(w.session.store, PendingWrites(h), Some(h.tx), now).1;
            var w1 := w.(session := Serve(w.session, CommitWrites(PendingWrites(h), Some(h.tx), now)));
            var w' := DoCommit(w, r, givesUp, now);
            if o.Refused? then w' == w1 || w' == Enter(w1, r, Aborted)
            else if h.phase == Unauthorized then w' == Enter(w1, r, Forbidding)
            else if h.phase == Decided(false) then w' == Enter(w1, r, Refusing)
            else w' == Enter(w1.(trace := w.trace + [AcquiredEvent(w, r)]), r, Holding)
  {
  }

  lemma AcquireSafe(start: Serial, w: World, w': World, r: nat, now: int)
    requires Safe(start, w) && r < |w.handlers| && w.handlers[r].phase == Decided(true)
    requires var h := w.handlers[r];
             var w1 := w.(session := Serve(w.session, CommitWrites(PendingWrites(h), Some(h.tx), now)));
             && Commit(w.session.store, PendingWrites(h), Some(h.tx), now).1.Done?
             && w' == Enter(w1.(trace := w.trace + [AcquiredEvent(w, r)]), r, Holding)
    ensures Safe(start, w') && Onward(w, w')
  {
    hide Commit, Serve, Attempts, Exclusive, StampedAlways, GoodHistory, Turned, Onward;
    var h := w.handlers[r];
    HasAttempted(start, w, r);
    AcquireFindsUnlocked(start, w, r, now);
    AcquireEffect(w.session.store, h.participant, Some(h.tx), now);
    ServedCommit(w.session, PendingWrites(h), Some(h.tx), now);
    TurnedByCommit(w, w', PendingWrites(h), Some(h.tx), now);
    TurnedStep(start, w, w', AcquiredEvent(w, r));
    AcquireAttempts(start, w, w', r, CommitWrites(PendingWrites(h), Some(h.tx), now));
    AcquireExclusive(w, w', r);
  }

  lemma AcquireExclusive(w: World, w': World, r: nat)
    requires Exclusive(w) && !Locked(LockOf(w)) && r < |w.handlers|
    requires w'.handlers == w.handlers[r := w.handlers[r].(phase := Holding)]
    requires Locked(LockOf(w')) && Field(LockOf(w').value.fields, "owner") == Integer(w.handlers[r].participant)
    ensures Exclusive(w')
  {
    assert forall q :: !Holds(w, q);
    assert Holds(w', r);
    assert forall q :: Holds(w', q) ==> q == r;
  }

  lemma AcquireAttempts(start: Serial, w: World, w': World, r: nat, request: Sessions.Request)
    requires Safe(start, w) && Onward(w, w') && r < |w.handlers| && w.handlers[r].attempts > 0
    requires request.CommitWrites? && (request.own.Some? ==> request.own.value == w.handlers[r].tx)
    requires w'.session == Serve(w.session, request)
    requires exists phase :: w'.handlers == w.handlers[r := w.handlers[r].(phase := phase)]
                             && !InAttempt(phase) && phase != Ready
    ensures Attempts(start, w')
  {
    OwnKind(start, w, r);
    CommitKeepsKind(w.session, request.writes, request.own, request.now, w.handlers[r].tx);
    LeftAttempt(start, w', r);
    ServeGood(start, w.session, request);
    ServeAlone(start, w, w', r, request);
    AttemptsStep(start, w, w', r);
  }

  lemma CommitSafe(start: Serial, w: World, r: nat, givesUp: bool, now: int)
    requires Safe(start, w) && r < |w.handlers| && (w.handlers[r].phase.Decided? || w.handlers[r].phase == Unauthorized)
    ensures Safe(start, DoCommit(w, r, givesUp, now)) && Onward(w, DoCommit(w, r, givesUp, now))
  {
    hide Commit, Serve, Attempts, Exclusive, StampedAlways, DoCommit, AcquiredEvent;
    var h := w.handlers[r];
    HasAttempted(start, w, r);
    CommitShape(w, r, givesUp, now);
    var writes := PendingWrites(h);
    var o := Commit(w.session.store, writes, Some(h.tx), now).1;
    if o.Refused? {
      HeldBackSafe(start, w, writes, Some(h.tx), now);
      LeavingCommitSafe(start, w, r, writes, Some(h.tx), now, Aborted);
    } else if h.phase == Decided(true) {
      AcquireSafe(start, w, DoCommit(w, r, givesUp, now), r, now);
    } else {
      LeavingCommitSafe(start, w, r, writes, Some(h.tx), now, if h.phase == Unauthorized then Forbidding else Refusing);
    }
  }

  // ----- Updates of the holder -----

  lemma CountSafe(start: Serial, w: World, r: nat, now: int)
    requires Safe(start, w) && r < |w.handlers| && w.handlers[r].phase == Holding
    ensures Safe(start, DoUpdate(w, r, CountWrites(), Counted, Stranded(false), [], now)) &&
            Onward(w, DoUpdate(w, r, CountWrites(), Counted, Stranded(false), [], now))
  {
    hide Commit, Serve, Attempts, Exclusive, StampedAlways;
    DistinctPaths();
    HasAttempted(start, w, r);
    assert w.trace + [] == w.trace;
    var o := Commit(w.session.store, CountWrites(), None, now).1;
    if o.Refused? { HeldBackSafe(start, w, CountWrites(), None, now); }
    LeavingCommitSafe(start, w, r, CountWrites(), None, now, if o.Done? then Counted else Stranded(false));
  }

  lemma ReleaseExclusive(w: World, w': World, r: nat)
    requires Exclusive(w) && Holds(w, r) && w'.handlers == w.handlers[r := w.handlers[r].(phase := Released)]
    requires !Locked(LockOf(w'))
    ensures Exclusive(w')
  {
    forall q ensures !Holds(w', q) { if Holds(w', q) { assert Holds(w, q); } }
  }

  lemma ReleaseSafe(start: Serial, w: World, r: nat, now: int)
    requires Safe(start, w) && r < |w.handlers| && w.handlers[r].phase == Counted
    ensures Safe(start, DoUpdate(w, r, ReleaseWrites(), Released, Stranded(true), [Freed(r)], now)) &&
            Onward(w, DoUpdate(w, r, ReleaseWrites(), Released, Stranded(true), [Freed(r)], now))
  {
    hide Commit, Serve, Attempts, StampedAlways, GoodHistory, Turned, Onward;
    var w' := DoUpdate(w, r, ReleaseWrites(), Released, Stranded(true), [Freed(r)], now);
    HasAttempted(start, w, r);
    assert Holds(w, r);
    if Commit(w.session.store, ReleaseWrites(), None, now).1.Refused? {
      HeldBackSafe(start, w, ReleaseWrites(), None, now);
      LeavingCommitSafe(start, w, r, ReleaseWrites(), None, now, Stranded(true));
    } else {
      ReleaseEffect(w.session.store, now);
      ServedCommit(w.session, ReleaseWrites(), None, now);
      TurnedByCommit(w, w', ReleaseWrites(), None, now);
      TurnedStep(start, w, w', Freed(r));
      AcquireAttempts(start, w, w', r, CommitWrites(ReleaseWrites(), None, now));
      ReleaseExclusive(w, w', r);
    }
  }

  // ----- Runs -----

  lemma NextSafe(start: Serial, w: World, a: Action)
    requires Safe(start, w)
    ensures Safe(start, Next(w, a)) && Onward(w, Next(w, a))
  {
    hide Safe, Serve, Commit, DoArrive, DoReadContext, DoReadLock, DoProceed, DoUpdate, DoAnswer, DoFail;
    match a
    case Arrive(participant, header) => ArriveSafe(start, w, participant, header);
    case Others(step) => if Foreign(w, step) { OthersSafe(start, w, step); }
    case Attempt(r, now) =>
      if r < |w.handlers| && w.handlers[r].phase == Ready { FirstAttemptSafe(start, w, r, now); }
      if r < |w.handlers| && w.handlers[r].phase == Aborted { RetriedAttemptSafe(start, w, r, now); }
    case ReadContext(r, now) => if r < |w.handlers| { ReadContextSafe(start, w, r, now); }
    case ReadLock(r, now) => if r < |w.handlers| { ReadLockSafe(start, w, r, now); }
    case Proceed(r, latchOpens) => if r < |w.handlers| { ProceedSafe(start, w, r, latchOpens); }
    case TryCommit(r, givesUp, now) =>
      if r < |w.handlers| && (w.handlers[r].phase.Decided? || w.handlers[r].phase == Unauthorized) {
        CommitSafe(start, w, r, givesUp, now);
      }
    case Count(r, now) => if r < |w.handlers| && w.handlers[r].phase == Holding { CountSafe(start, w, r, now); }
    case Release(r, now) => if r < |w.handlers| && w.handlers[r].phase == Counted { ReleaseSafe(start, w, r, now); }
    case Answer(r) => if r < |w.handlers| { AnswerSafe(start, w, r); }
    case Fail(r) => if r < |w.handlers| { FailSafe(start, w, r); }
  }

  lemma InitialSafe(w: World)
    requires Initial(w)
    ensures Safe(StartOf(w.session), w)
  {
    FreshGood(w.session);
    forall v: nat | w.session.store.version <= v ensures Stamped(GetAt(w.session.store.history, LOCK, v)) {
      AsOfNow(Retained(w.session.store.history, LOCK), v);
    }
  }

  lemma {:induction false} RunSafe(w: World, actions: seq<Action>)
    requires Initial(w)
    ensures Safe(StartOf(w.session), Run(w, actions))
  {
    if actions == [] {
      InitialSafe(w);
    } else {
      RunSafe(w, actions[..|actions| - 1]);
      NextSafe(StartOf(w.session), Run(w, actions[..|actions| - 1]), actions[|actions| - 1]);
    }
  }

  /**
   Mutual exclusion: in every state of every run at most one request is between its acquire
   and its release, and the lock document is locked exactly when there is one, in its name.
   */
  lemma MutualExclusion(w: World, actions: seq<Action>)
    requires Initial(w)
    ensures var w' := Run(w, actions);
            && (forall q, r :: Holds(w', q) && Holds(w', r) ==> q == r)
            && (Locked(LockOf(w')) <==> exists r :: Holds(w', r))
            && (forall r :: Holds(w', r) ==>
                  Field(LockOf(w').value.fields, "owner") == Integer(w'.handlers[r].participant))
  {
    RunSafe(w, actions);
  }
}
