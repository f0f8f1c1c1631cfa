/** What a handler knows of its attempt is what its transaction read, for as long as it can commit. */
module LockAttempts {
  import opened Common
  import opened Store
  import opened Sessions
  import opened Serializability
  import opened LockAuth
  import opened LockProtocol
  import opened LockEffects

  predicate InAttempt(p: Phase) {
    p.Begun? || p.Authorized? || p.Observed? || p.Decided? || p.Unauthorized?
  }

  predicate LockChange(e: Event) {
    e.Acquired? || e.Freed?
  }

  /** The lock has moved past the snapshot if it changed after the snapshot was taken. */
  ghost predicate Outdated(w: World, h: Handler, version: nat) {
    forall k :: h.snapshotAt < k < |w.trace| && LockChange(w.trace[k]) ==>
      var lock := Get(w.session.store.history, LOCK);
      lock.Some? && lock.value.version > version
  }

  ghost predicate SnapshotTaken(start: Serial, w: World, r: nat)
    requires r < |w.handlers| && w.handlers[r].tx in w.session.store.txs
  {
    var h := w.handlers[r];
    var t := w.session.store.txs[h.tx];
    && !t.snapshotPending && t.readVersion >= start.version
    && h.snapshotAt < |w.trace| && CONTEXT in SeenBy(w.session, h.tx)
    && w.trace[h.snapshotAt] == Snapshot(r, h.attempts, SeenBy(w.session, h.tx)[CONTEXT])
    && Outdated(w, h, t.readVersion)
  }

  predicate Presents(h: Handler, context: Option<Document>) {
    var c := ParseContext(context);
    c.Ok? && TokenMatches(h.presented, c.value.token)
  }

  lemma PresentsIff(h: Handler, context: Option<Document>)
    ensures Presents(h, context) <==> Configures(context, h.presented)
  {
    ParseIff(context);
    if ParseContext(context).Ok? { MatchIsEquality(h.presented, ParseContext(context).value.token); }
  }

  /** The attempt's local state against what the store told its transaction. */
  ghost predicate Remembers(h: Handler, seen: map<Path, Option<Document>>) {
    match h.phase
    case Begun => seen == map[]
    case Authorized(config) =>
      CONTEXT in seen && Presents(h, seen[CONTEXT]) && ParseContext(seen[CONTEXT]) == Ok(config)
    case Observed(config, lock) =>
      && CONTEXT in seen && Presents(h, seen[CONTEXT])
      && LOCK in seen && seen[LOCK].Some? && seen[LOCK].value.fields == lock
      && seen[LOCK].value.version == h.lockVersion
    case Decided(acquired) =>
      && CONTEXT in seen && Presents(h, seen[CONTEXT])
      && LOCK in seen && seen[LOCK].Some? && IsLocked(seen[LOCK].value.fields) == !acquired
      && seen[LOCK].value.version == h.lockVersion
    case _ => true
  }

  ghost predicate AttemptOk(start: Serial, w: World, r: nat)
    requires r < |w.handlers|
  {
    var h := w.handlers[r];
    && (h.phase == Ready ==> h.attempts == 0)
    && (h.attempts == 0 ==> h.phase.Ready? || h.phase.Replied? || h.phase.Thrown?)
    && (h.attempts > 0 ==> && h.tx in w.session.store.txs && !w.session.store.txs[h.tx].readOnly)
    && (InAttempt(h.phase) && Usable(w.session.store, h.tx) ==>
          && Remembers(h, SeenBy(w.session, h.tx))
          && (if h.phase.Begun? then w.session.store.txs[h.tx].snapshotPending else SnapshotTaken(start, w, r)))
  }

  ghost predicate OwnTransactions(w: World) {
    forall q, r :: 0 <= q < |w.handlers| && 0 <= r < |w.handlers| && q != r
                   && w.handlers[q].attempts > 0 && w.handlers[r].attempts > 0 ==>
      w.handlers[q].tx != w.handlers[r].tx
  }

  ghost predicate Attempts(start: Serial, w: World) {
    && Good(start, w.session) && start.version <= w.session.store.version
    && OwnTransactions(w)
    && forall r :: 0 <= r < |w.handlers| ==> AttemptOk(start, w, r)
  }

  // ----- A step seen from a handler that does not take it -----

  /** The trace grows, and a lock change comes with a lock newer than every snapshot. */
  ghost predicate Onward(w: World, w': World) {
    && |w.trace| <= |w'.trace| && w'.trace[..|w.trace|] == w.trace
    && w.session.store.version <= w'.session.store.version
    && (if exists k :: |w.trace| <= k < |w'.trace| && LockChange(w'.trace[k])
        then var lock := Get(w'.session.store.history, LOCK);
             lock.Some? && lock.value.version > w.session.store.version
        else Get(w'.session.store.history, LOCK) == Get(w.session.store.history, LOCK))
  }

  lemma OutdatedStays(w: World, w': World, h: Handler, version: nat)
    requires Outdated(w, h, version) && Onward(w, w') && version <= w.session.store.version
    ensures Outdated(w', h, version)
  {
    forall k | h.snapshotAt < k < |w'.trace| && LockChange(w'.trace[k])
      ensures var lock := Get(w'.session.store.history, LOCK); lock.Some? && lock.value.version > version
    {
      if k < |w.trace| { assert w'.trace[k] == w'.trace[..|w.trace|][k] == w.trace[k]; }
    }
  }

  lemma BystanderOk(start: Serial, w: World, w': World, r: nat)
    requires Attempts(start, w) && r < |w.handlers| && r < |w'.handlers| && w'.handlers[r] == w.handlers[r]
    requires Onward(w, w')
    requires w.handlers[r].attempts > 0 ==>
               && SameKind(w.session, w'.session, w.handlers[r].tx)
               && Spared(w.session, w'.session, w.handlers[r].tx)
    ensures AttemptOk(start, w', r)
  {
    var h := w.handlers[r];
    assert AttemptOk(start, w, r);
    if InAttempt(h.phase) && Usable(w'.session.store, h.tx) && !h.phase.Begun? {
      assert GoodTransaction(w.session.store, SeenBy(w.session, h.tx), h.tx);
      OutdatedStays(w, w', h, w.session.store.txs[h.tx].readVersion);
      assert w'.trace[h.snapshotAt] == w'.trace[..|w.trace|][h.snapshotAt];
    }
  }
}
