/** What the store's steps do to a handler's transaction and to the two guarded documents. */
module LockEffects {
  import opened Common
  import opened Store
  import opened Sessions
  import opened Serializability
  import opened Locking
  import opened LockProtocol

  lemma DistinctPaths()
    ensures CONTEXT != LOCK && CONTEXT != ACTIONS && LOCK != ACTIONS
  {
    assert |CONTEXT| == 20 && |ACTIONS| == 20 && |LOCK| == 17;
    assert CONTEXT[13] == 'c' && ACTIONS[13] == 'a';
  }

  // ----- Transactions -----

  /** A transaction that is still usable is the one it was, told what it was told. */
  ghost predicate Spared(a: Session, b: Session, id: TxId) {
    Usable(b.store, id) ==>
      && Usable(a.store, id) && SameSnapshot(a.store.txs[id], b.store.txs[id])
      && SeenBy(a, id) == SeenBy(b, id)
  }

  predicate SameKind(a: Session, b: Session, id: TxId) {
    id in a.store.txs && id in b.store.txs && a.store.txs[id].readOnly == b.store.txs[id].readOnly
  }

  predicate Concerns(r: Sessions.Request, id: TxId) {
    match r
    case GetDocument(i, _, _) => i == id
    case AskQuery(i, _, _) => i == id
    case CommitWrites(_, own, _) => own == Some(id)
    case RollbackTransaction(i) => i == id
    case RetryTransaction(i, _) => i == id
    case _ => false
  }

  lemma TouchSpares(s: Store, id: TxId, now: int, i: TxId)
    requires i != id
    ensures Usable(Touch(s, id, now), i) ==> Usable(s, i) && s.txs[i] == Touch(s, id, now).txs[i]
  {
  }

  lemma CommitSpares(s: Session, writes: seq<Write>, own: Option<TxId>, now: int, id: TxId)
    requires Commit(s.store, writes, own, now).1.Refused? || own != Some(id)
    ensures Spared(s, ServeCommit(s, writes, own, now), id)
    ensures id in s.store.txs ==> SameKind(s, ServeCommit(s, writes, own, now), id)
  {
    var (st, o) := Commit(s.store, writes, own, now);
    if o.Refused? {
      RefusedKeeps(s.store, writes, own, now);
    } else {
      DoneExtends(s.store, writes, own, now, LogEntry(map[], [], writes, o.time));
    }
    assert KeptAt(s.store, st, id);
  }

  lemma RetrySpares(s: Session, previous: TxId, now: int, id: TxId)
    requires id in s.store.txs && id <= s.store.nextTx
    ensures Spared(s, Serve(s, RetryTransaction(previous, now)), id)
    ensures SameKind(s, Serve(s, RetryTransaction(previous, now)), id)
  {
    if Retry(s.store, previous, now).1.Ok? {
      ConsumeKeeps(s.store, previous);
      assert KeptAt(s.store, Consume(s.store, previous), id);
    }
  }

  lemma ReadSpares(s: Session, i: TxId, p: Path, now: int, id: TxId)
    requires id in s.store.txs && i != id
    ensures Spared(s, ServeRead(s, i, p, now), id) && SameKind(s, ServeRead(s, i, p, now), id)
  {
    hide Get, GetAt;
    TouchSpares(s.store, i, now, id);
  }

  lemma QuerySpares(s: Session, i: TxId, q: Query, now: int, id: TxId)
    requires id in s.store.txs && i != id
    ensures Spared(s, ServeQuery(s, i, q, now), id) && SameKind(s, ServeQuery(s, i, q, now), id)
  {
    hide ServeQuery, Rows, DbAt, Touch;
    TouchSpares(s.store, i, now, id);
    TouchKeepsKind(s.store, i, now, id);
    QueryShape(s, i, q, now);
  }

  lemma TouchKeepsKind(s: Store, i: TxId, now: int, id: TxId)
    requires id in s.txs
    ensures id in Touch(s, i, now).txs && Touch(s, i, now).txs[id].readOnly == s.txs[id].readOnly
  {
  }

  lemma FinishSpares(s: Session, i: TxId, state: TxState, id: TxId)
    requires id in s.store.txs && state != Active
    ensures var s' := s.(store := Finish(s.store, i, state)); Spared(s, s', id) && SameKind(s, s', id)
  {
  }

  lemma BeginSpares(s: Session, readOnly: bool, version: nat, readTime: int, snapshot: Moment, now: int, id: TxId)
    requires id in s.store.txs && id <= s.store.nextTx
    ensures var s' := s.(store := Begin(s.store, readOnly, version, readTime, snapshot, now).0);
            Spared(s, s', id) && SameKind(s, s', id)
  {
  }

  /** A request spares the transactions it does not concern. */
  lemma ServeSpares(s: Session, r: Sessions.Request, id: TxId)
    requires id in s.store.txs && id <= s.store.nextTx && !Concerns(r, id)
    ensures Spared(s, Serve(s, r), id) && SameKind(s, Serve(s, r), id)
  {
    hide Commit, Retry, CompactHistory, ServeRead, ServeQuery, ServeCommit, Begin, Finish, ReadTime;
    match r
    case BeginTransaction(readOnly, snapshot, now) =>
      BeginSpares(s, readOnly, s.store.version, ReadTime(s.store, now), snapshot, now, id);
    case BeginAt(version, readTime, now) => BeginSpares(s, true, version, readTime, AtBegin, now, id);
    case GetDocument(i, p, now) => ReadSpares(s, i, p, now, id);
    case AskQuery(i, q, now) => QuerySpares(s, i, q, now, id);
    case CommitWrites(writes, own, now) => CommitSpares(s, writes, own, now, id);
    case RollbackTransaction(i) => FinishSpares(s, i, RolledBack, id);
    case RetryTransaction(i, now) => RetrySpares(s, i, now, id);
    case ExpireTransaction(i) => FinishSpares(s, i, Finished, id);
    case CompactTo(_) =>
  }

  // ----- Documents -----

  lemma SingleStage(s: Store, w: Write, e: LogEntry)
    requires e.writes == [w]
    ensures StageOf(s, e) == StageOne(Current(s.history), map[], w, e.time, s.version + 1)
  {
    assert e.writes[..|e.writes| - 1] == [];
    assert StageAll(Current(s.history), [], e.time, s.version + 1) == Ok(map[]);
  }

  /** What one write to `before` leaves: the document and the version of the store. */
  ghost predicate Wrote(a: Store, b: Store, w: Write, time: int) {
    var before := Get(a.history, w.op.path);
    var next := ApplyWrite(w, before, time, a.version + 1);
    && Admits(w.precondition, before) && next.Ok?
    && (if NoChange(w, before, next.value)
        then b.version == a.version && Get(b.history, w.op.path) == before
        else b.version == a.version + 1 && Get(b.history, w.op.path) == next.value)
  }

  lemma SingleExtends(a: Store, b: Store, w: Write, e: LogEntry)
    requires e.writes == [w] && StageOf(a, e).Ok? && Extends(a, b, StageOf(a, e).value)
    ensures Wrote(a, b, w, e.time)
  {
    var p := w.op.path;
    CurrentIsLatest(a.history, p);
    SingleStage(a, w, e);
    var stage := StageOf(a, e).value;
    assert stage.Keys == {p};
    if stage[p].changed { PublishedHistory(a.history, stage, a.version + 1, p); }
  }

  /** A commit of one write either changes nothing or leaves the written document. */
  lemma SingleWrite(s: Store, w: Write, own: Option<TxId>, now: int)
    requires Commit(s, [w], own, now).1.Done?
    ensures Wrote(s, Commit(s, [w], own, now).0, w, Commit(s, [w], own, now).1.time)
  {
    var e := LogEntry(map[], [], [w], Commit(s, [w], own, now).1.time);
    DoneExtends(s, [w], own, now, e);
    SingleExtends(s, Commit(s, [w], own, now).0, w, e);
  }

  lemma AcquireEffect(s: Store, participant: int, own: Option<TxId>, now: int)
    requires Commit(s, AcquireWrites(participant), own, now).1.Done? && !Locked(Get(s.history, LOCK))
    ensures var (s', o) := Commit(s, AcquireWrites(participant), own, now);
            var lock := Get(s'.history, LOCK);
            && Get(s.history, LOCK).Some? && s'.version == s.version + 1
            && Locked(lock) && lock.value.version == s.version + 1
            && Field(lock.value.fields, "owner") == Integer(participant)
            && Field(lock.value.fields, "startedAt") == Field(lock.value.fields, "updatedAt") == Timestamp(o.time)
  {
    var w := AcquireWrites(participant)[0];
    SingleWrite(s, w, own, now);
    var (s', o) := Commit(s, AcquireWrites(participant), own, now);
    var base := Get(s.history, LOCK).value.fields;
    var f0 := Masked(base, w.op.fields, {"locked", "owner"});
    var f1 := f0["startedAt" := Timestamp(o.time)];
    var f2 := f1["updatedAt" := Timestamp(o.time)];
    assert ApplyTransforms(f1, w.transforms[1..], o.time) == Ok(f2) by {
      assert w.transforms[1..][1..] == [];
    }
    assert ApplyTransforms(f0, w.transforms, o.time) == Ok(f2);
    assert Field(f2, "locked") == Bool(true) && Field(f2, "owner") == Integer(participant);
  }

  lemma ReleaseEffect(s: Store, now: int)
    requires Commit(s, ReleaseWrites(), None, now).1.Done? && Locked(Get(s.history, LOCK))
    ensures var (s', o) := Commit(s, ReleaseWrites(), None, now);
            var lock := Get(s'.history, LOCK);
            && s'.version == s.version + 1
            && lock.Some? && !Locked(lock) && lock.value.version == s.version + 1
  {
    var w := ReleaseWrites()[0];
    SingleWrite(s, w, None, now);
    var base := Get(s.history, LOCK).value.fields;
    assert Field(Masked(base, w.op.fields, {"locked"}), "locked") == Bool(false);
  }

  function CountOf(actions: Option<Document>): int {
    if actions.Some? && Field(actions.value.fields, "count").Integer? then Field(actions.value.fields, "count").n else 0
  }

  lemma CountEffect(s: Store, now: int)
    requires Commit(s, CountWrites(), None, now).1.Done?
    ensures var (s', o) := Commit(s, CountWrites(), None, now);
            CountOf(Get(s'.history, ACTIONS)) == Saturate(CountOf(Get(s.history, ACTIONS)) + 1)
  {
    var w := CountWrites()[0];
    SingleWrite(s, w, None, now);
    var (s', o) := Commit(s, CountWrites(), None, now);
    var base := Get(s.history, ACTIONS).value.fields;
    var f0 := Masked(base, map[], {});
    assert f0 == base;
    assert w.transforms[1..] == [];
  }

  // ----- Steps that leave a document alone -----

  /** The document is what it was, now and at every version that is still retained. */
  ghost predicate Untouched(a: Store, b: Store, p: Path) {
    && a.floor <= b.floor && a.version <= b.version
    && Get(b.history, p) == Get(a.history, p)
    && forall v: nat :: b.floor <= v ==> GetAt(b.history, p, v) == GetAt(a.history, p, v)
  }

  lemma SameDataUntouched(a: Store, b: Store, p: Path)
    requires SameData(a, b)
    ensures Untouched(a, b, p)
  {
  }

  /** A commit adds at most one entry to a path, under a version nobody has read. */
  lemma CommitHistory(s: Store, writes: seq<Write>, own: Option<TxId>, now: int, p: Path, v: nat)
    requires GoodHistory(s.history, s.version) && Commit(s, writes, own, now).1.Done?
    ensures var s' := Commit(s, writes, own, now).0;
            && s'.floor == s.floor && s.version <= s'.version && GoodHistory(s'.history, s'.version)
            && (v <= s.version ==> GetAt(s'.history, p, v) == GetAt(s.history, p, v))
            && (v > s.version ==> GetAt(s'.history, p, v) == Get(s'.history, p))
            && (v > s.version ==> GetAt(s.history, p, v) == Get(s.history, p))
  {
    hide Commit, PublishHistory, StageOf, GoodStage, AsOf;
    var (s', o) := Commit(s, writes, own, now);
    var e := LogEntry(map[], [], writes, o.time);
    DoneExtends(s, writes, own, now, e);
    ExtendedGood(s, s', StageOf(s, e).value);
    AsOfNow(Retained(s.history, p), s.version);
    if v <= s.version {
      ExtendedSnapshot(s, s', StageOf(s, e).value, p, v);
    } else {
      AsOfNow(Retained(s.history, p), v);
      AsOfNow(Retained(s'.history, p), v);
    }
  }

  lemma CommitUntouched(s: Store, writes: seq<Write>, own: Option<TxId>, now: int, p: Path)
    requires GoodHistory(s.history, s.version)
    requires p !in Written(writes) || Commit(s, writes, own, now).1.Refused?
    ensures Untouched(s, Commit(s, writes, own, now).0, p)
  {
    var (s', o) := Commit(s, writes, own, now);
    if o.Refused? {
      RefusedKeeps(s, writes, own, now);
    } else {
      UnwrittenStays(s, writes, own, now, p);
      CommitHistory(s, writes, own, now, p, s.version);
      forall v: nat | s'.floor <= v ensures GetAt(s'.history, p, v) == GetAt(s.history, p, v) {
        CommitHistory(s, writes, own, now, p, v);
      }
    }
  }

  lemma CompactUntouched(s: Store, floor: nat, p: Path)
    requires GoodHistory(s.history, s.version)
    ensures Untouched(s, Compact(s, floor), p)
  {
    if s.floor < floor <= s.version {
      CompactedCurrent(s.history, floor, s.version);
      forall v: nat | floor <= v ensures GetAt(CompactHistory(s.history, floor), p, v) == GetAt(s.history, p, v) {
        CompactedAt(s.history, floor, s.version, p, v);
      }
    }
  }

  lemma ServeUntouched(start: Serial, s: Session, r: Sessions.Request, p: Path)
    requires Good(start, s)
    requires r.CommitWrites? ==>
               p !in Written(r.writes) || Commit(s.store, r.writes, r.own, r.now).1.Refused?
    ensures Untouched(s.store, Serve(s, r).store, p)
  {
    hide Untouched, GoodHistory, GoodLog, GoodTransactions, GetAt, Get, Commit, Compact, Touch, Rows, DbAt;
    hide ServeRead, ServeQuery;
    match r
    case GetDocument(id, path, now) =>
      ReadShape(s, id, path, now);
      TouchKnown(s.store, id, now);
      SameDataUntouched(s.store, Serve(s, r).store, p);
    case AskQuery(id, query, now) =>
      QueryShape(s, id, query, now);
      TouchKnown(s.store, id, now);
      SameDataUntouched(s.store, Serve(s, r).store, p);
    case CommitWrites(writes, own, now) => CommitUntouched(s.store, writes, own, now, p);
    case CompactTo(floor) => CompactUntouched(s.store, floor, p);
    case RetryTransaction(i, now) =>
      if Retry(s.store, i, now).1.Ok? { ConsumeKeeps(s.store, i); }
      SameDataUntouched(s.store, Serve(s, r).store, p);
    case _ => SameDataUntouched(s.store, Serve(s, r).store, p);
  }
}
