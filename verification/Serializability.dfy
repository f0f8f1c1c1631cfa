/** Every accepted commit is serial: the proof over all requests and all runs. */
module Serializability {
  import opened Common
  import opened Store
  import opened Sessions

  // ----- Histories -----

  lemma {:induction false} AsOfIsOld(es: seq<Entry>, v: nat)
    requires Sorted(es) && Tagged(es)
    ensures AsOf(es, v).Some? ==> AsOf(es, v).value.version <= v
  {
    if es != [] && es[|es| - 1].version > v { AsOfIsOld(es[..|es| - 1], v); }
  }

  /** A version names one document of a path: equal versions, equal documents. */
  lemma SameVersionSameDocument(es: seq<Entry>, v: nat)
    requires Sorted(es) && Tagged(es)
    requires VersionOf(Latest(es)) == VersionOf(AsOf(es, v))
    ensures Latest(es) == AsOf(es, v)
  {
    if es != [] && es[|es| - 1].version > v { AsOfIsOld(es[..|es| - 1], v); }
  }

  lemma AsOfNow(es: seq<Entry>, v: nat)
    requires es != [] ==> es[|es| - 1].version <= v
    ensures AsOf(es, v) == Latest(es)
  {
  }

  lemma AsOfAppend(es: seq<Entry>, e: Entry, v: nat)
    requires v < e.version
    ensures AsOf(es + [e], v) == AsOf(es, v)
  {
    assert (es + [e])[..|es|] == es;
  }

  // ----- Staging -----

  ghost predicate GoodStage(db: Db, stage: Stage, version: nat) {
    forall p :: p in stage ==>
      if stage[p].changed then stage[p].current.Some? ==> stage[p].current.value.version == version
      else stage[p].current == Lookup(db, p)
  }

  lemma {:induction false} StagedVersions(db: Db, writes: seq<Write>, time: int, version: nat)
    ensures var r := StageAll(db, writes, time, version);
            r.Ok? ==> GoodStage(db, r.value, version) && r.value.Keys <= Written(writes)
  {
    if writes != [] { StagedVersions(db, writes[..|writes| - 1], time, version); }
  }

  lemma StageNone(db: Db, writes: seq<Write>, time: int, version: nat)
    ensures StageAll(db, writes[..0], time, version) == Ok(map[])
  {
  }

  lemma StageNext(db: Db, writes: seq<Write>, i: nat, time: int, version: nat)
    requires i < |writes| && StageAll(db, writes[..i], time, version).Ok?
    ensures StageAll(db, writes[..i + 1], time, version) ==
            StageOne(db, StageAll(db, writes[..i], time, version).value, writes[i], time, version)
  {
    hide StageOne;
    assert writes[..i + 1][..i] == writes[..i];
  }

  /** The first write that fails decides the outcome of the commit. */
  lemma {:induction false} StageErrorStays(db: Db, writes: seq<Write>, n: nat, time: int, version: nat)
    requires n <= |writes| && StageAll(db, writes[..n], time, version).Err?
    ensures StageAll(db, writes, time, version) == StageAll(db, writes[..n], time, version)
    decreases |writes|
  {
    if n == |writes| {
      assert writes[..n] == writes;
    } else {
      var m := |writes| - 1;
      assert writes[..m][..n] == writes[..n];
      StageErrorStays(db, writes[..m], n, time, version);
    }
  }

  lemma CurrentIsLatest(h: History, p: Path)
    ensures Lookup(Current(h), p) == Get(h, p)
  {
  }

  lemma PublishedAt(db: Db, stage: Stage, p: Path)
    ensures Lookup(Publish(db, stage), p) == if Changes(stage, p) then stage[p].current else Lookup(db, p)
  {
  }

  lemma PublishedHistory(h: History, stage: Stage, version: nat, p: Path)
    ensures Retained(PublishHistory(h, stage, version), p)
         == Retained(h, p) + if Changes(stage, p) then [Entry(version, stage[p].current)] else []
  {
  }

  lemma SameDatabase(a: Db, b: Db)
    requires forall p :: Lookup(a, p) == Lookup(b, p)
    ensures a == b
  {
    assert forall p :: p in a ==> Lookup(a, p) == Some(a[p]) && Lookup(b, p) == Some(a[p]);
    assert forall p :: p in b ==> Lookup(b, p) == Some(b[p]) && Lookup(a, p) == Some(b[p]);
  }

  /** Publishing to the histories is publishing to the database. */
  lemma PublishedCurrent(h: History, stage: Stage, version: nat)
    ensures Current(PublishHistory(h, stage, version)) == Publish(Current(h), stage)
  {
    var h' := PublishHistory(h, stage, version);
    forall p ensures Lookup(Current(h'), p) == Lookup(Publish(Current(h), stage), p) {
      PublishedHistory(h, stage, version, p);
      CurrentIsLatest(h', p);
      CurrentIsLatest(h, p);
      PublishedAt(Current(h), stage, p);
    }
    SameDatabase(Current(h'), Publish(Current(h), stage));
  }

  lemma AppendedGood(es: seq<Entry>, doc: Option<Document>, version: nat)
    requires es == [] || GoodEntries(es, version)
    requires doc.Some? ==> doc.value.version == version + 1
    ensures GoodEntries(es + [Entry(version + 1, doc)], version + 1)
  {
  }

  lemma PublishedGood(h: History, stage: Stage, db: Db, version: nat)
    requires GoodHistory(h, version) && GoodStage(db, stage, version + 1)
    ensures GoodHistory(PublishHistory(h, stage, version + 1), version + 1)
  {
    var h' := PublishHistory(h, stage, version + 1);
    forall p | p in h' ensures GoodEntries(h'[p], version + 1) {
      assert h'[p] == Retained(h', p);
      PublishedHistory(h, stage, version + 1, p);
      if Changes(stage, p) {
        AppendedGood(Retained(h, p), stage[p].current, version);
      } else {
        assert Retained(h, p) + [] == Retained(h, p);
      }
    }
  }

  // ----- Steps that leave the documents alone -----

  predicate SameData(a: Store, b: Store) {
    a.history == b.history && a.version == b.version && a.floor == b.floor
  }

  ghost predicate SameSnapshot(t: Transaction, u: Transaction) {
    && t.readOnly == u.readOnly && t.readVersion == u.readVersion
    && t.snapshotPending == u.snapshotPending && t.readSet == u.readSet && t.queries == u.queries
  }

  ghost predicate KeptAt(a: Store, b: Store, id: TxId) {
    && (id in a.txs <==> id in b.txs)
    && (id in a.txs ==> a.txs[id].readOnly == b.txs[id].readOnly)
    && (Usable(b, id) ==> Usable(a, id) && SameSnapshot(a.txs[id], b.txs[id]))
  }

  /** No transaction appears, and one that survives keeps its snapshot and its locks. */
  ghost predicate Kept(a: Store, b: Store) {
    a.nextTx == b.nextTx && forall id :: KeptAt(a, b, id)
  }

  lemma KeptTransitive(a: Store, b: Store, c: Store)
    requires Kept(a, b) && Kept(b, c)
    ensures Kept(a, c)
  {
    forall id ensures KeptAt(a, c, id) { assert KeptAt(a, b, id) && KeptAt(b, c, id); }
  }

  lemma FinishKeepsAt(s: Store, id: TxId, state: TxState, i: TxId)
    requires state != Active
    ensures KeptAt(s, Finish(s, id, state), i)
  {
    if i == id && id in s.txs {
      assert Finish(s, id, state).txs[i] == FinishedTx(s.txs[id], state);
      assert !Usable(Finish(s, id, state), i);
    } else {
      hide FinishedTx;
      assert i in s.txs ==> Finish(s, id, state).txs[i] == s.txs[i];
    }
  }

  lemma FinishKeeps(s: Store, id: TxId, state: TxState)
    requires state != Active
    ensures SameData(s, Finish(s, id, state)) && Kept(s, Finish(s, id, state))
  {
    hide KeptAt, FinishedTx;
    forall i ensures KeptAt(s, Finish(s, id, state), i) { FinishKeepsAt(s, id, state, i); }
  }

  lemma SacrificeKeeps(s: Store, ids: set<TxId>)
    ensures SameData(s, Sacrifice(s, ids)) && Kept(s, Sacrifice(s, ids))
    ensures forall id :: id in s.txs && id !in ids ==>
              id in Sacrifice(s, ids).txs && Sacrifice(s, ids).txs[id] == s.txs[id]
  {
    forall i ensures KeptAt(s, Sacrifice(s, ids), i) { }
  }

  lemma WaitKeeps(s: Store, id: TxId, writes: seq<Write>)
    ensures SameData(s, Wait(s, id, writes)) && Kept(s, Wait(s, id, writes))
    ensures forall i :: Usable(s, i) ==> Usable(Wait(s, id, writes), i)
    ensures forall i :: i in s.txs ==>
              i in Wait(s, id, writes).txs && SameSnapshot(s.txs[i], Wait(s, id, writes).txs[i])
  {
    forall i ensures KeptAt(s, Wait(s, id, writes), i) { }
  }

  lemma NonHolder(s: Store, writes: seq<Write>, own: Option<TxId>, id: TxId)
    requires Usable(s, id) && !s.txs[id].readOnly && own != Some(id) && id !in Holders(s, writes, own)
    ensures !Locks(s, id, writes)
  {
  }

  lemma ResolveKeeps(s: Store, writes: seq<Write>, id: TxId)
    requires id in s.txs
    ensures SameData(s, Resolve(s, writes, id).0) && Kept(s, Resolve(s, writes, id).0)
    ensures Resolve(s, writes, id).1.None? ==> Resolve(s, writes, id).0.txs[id] == s.txs[id]
  {
    var cycle := Cycle(s, writes, id);
    assert id !in cycle;
    SacrificeKeeps(s, {id});
    SacrificeKeeps(s, cycle);
    WaitKeeps(Sacrifice(s, cycle), id, writes);
    KeptTransitive(s, Sacrifice(s, cycle), Wait(Sacrifice(s, cycle), id, writes));
  }

  lemma ContentionKeeps(s: Store, writes: seq<Write>, own: Option<TxId>)
    ensures var (s', e) := CheckContention(s, writes, own);
            && SameData(s, s') && Kept(s, s')
            && (e.None? && own.Some? && Usable(s, own.value) ==>
                  Usable(s', own.value) && SameSnapshot(s.txs[own.value], s'.txs[own.value]))
  {
    if own.Some? {
      var s1 := Wait(s, own.value, []);
      WaitKeeps(s, own.value, []);
      if own.value in s1.txs {
        ResolveKeeps(s1, writes, own.value);
        KeptTransitive(s, s1, Resolve(s1, writes, own.value).0);
      }
    }
  }

  /** Past the contention check nobody else holds a lock on what is written. */
  lemma ContentionUnlocks(s: Store, writes: seq<Write>, own: Option<TxId>, id: TxId)
    requires CheckContention(s, writes, own).1.None?
    requires var s' := CheckContention(s, writes, own).0;
             Usable(s', id) && !s'.txs[id].readOnly && own != Some(id)
    ensures !Locks(CheckContention(s, writes, own).0, id, writes)
  {
    var s1 := if own.Some? then Wait(s, own.value, []) else s;
    if Holders(s1, writes, own) == {} {
      NonHolder(s1, writes, own, id);
    } else {
      SacrificeKeeps(s1, Cycle(s1, writes, own.value));
      NonHolder(s1, writes, own, id);
    }
  }

  lemma TransactionCheckKeeps(s: Store, id: TxId, writes: seq<Write>)
    ensures var (s', e) := CheckTransaction(s, id, writes);
            && SameData(s, s') && Kept(s, s')
            && (e.None? ==> && s' == s && Usable(s, id)
                            && (s.txs[id].readOnly ==> writes == [])
                            && (!s.txs[id].readOnly ==> !Conflicted(s, id)))
  {
    FinishKeeps(s, id, CommitRefused);
    FinishKeeps(s, id, RetryableAborted);
  }

  /** The store on which an accepted commit's writes are applied. */
  function Admitted(s: Store, writes: seq<Write>, own: Option<TxId>): Store {
    CheckContention(s, writes, own).0
  }

  lemma RefusedKeeps(s: Store, writes: seq<Write>, own: Option<TxId>, now: int)
    requires Commit(s, writes, own, now).1.Refused?
    ensures SameData(s, Commit(s, writes, own, now).0) && Kept(s, Commit(s, writes, own, now).0)
  {
    if own.Some? { TransactionCheckKeeps(s, own.value, writes); }
    ContentionKeeps(s, writes, own);
    var a := Admitted(s, writes, own);
    EndedKeeps(a, own, CommitRefused);
    KeptTransitive(s, a, Ended(a, own, CommitRefused));
  }

  /** What an accepted commit passed. */
  lemma DoneIsAdmitted(s: Store, writes: seq<Write>, own: Option<TxId>, now: int)
    requires Commit(s, writes, own, now).1.Done?
    ensures var a := Admitted(s, writes, own);
            && SameData(s, a) && Kept(s, a)
            && Commit(s, writes, own, now) == Apply(a, writes, own, now)
            && (own.Some? ==> && Usable(s, own.value)
                              && Usable(a, own.value)
                              && SameSnapshot(s.txs[own.value], a.txs[own.value])
                              && (s.txs[own.value].readOnly ==> writes == [])
                              && (!s.txs[own.value].readOnly ==> !Conflicted(s, own.value)))
  {
    if own.Some? { TransactionCheckKeeps(s, own.value, writes); }
    ContentionKeeps(s, writes, own);
  }

  // ----- Each request keeps the invariant -----

  lemma DbAtIs(h: History, v: nat, p: Path)
    ensures Lookup(DbAt(h, v), p) == GetAt(h, p, v)
  {
  }

  lemma SameDbAt(g: History, h: History, v: nat)
    requires forall p :: GetAt(g, p, v) == GetAt(h, p, v)
    ensures DbAt(g, v) == DbAt(h, v)
  {
    forall p ensures Lookup(DbAt(g, v), p) == Lookup(DbAt(h, v), p) {
      DbAtIs(g, v, p);
      DbAtIs(h, v, p);
    }
    SameDatabase(DbAt(g, v), DbAt(h, v));
  }

  /** The ids of the transactions stay below the next one, and those told something exist. */
  lemma KeptKnown(s: Session, st: Store)
    requires GoodTransactions(s) && Kept(s.store, st)
    ensures forall id :: id in st.txs ==> id <= st.nextTx
    ensures forall id :: id in s.seen ==> id in st.txs
    ensures forall id :: id in s.answers ==> id in st.txs
  {
    forall id | id in s.answers ensures id in st.txs { assert KeptAt(s.store, st, id); }
    forall id | id in st.txs ensures id <= st.nextTx { assert KeptAt(s.store, st, id); }
    forall id | id in s.seen ensures id in st.txs { assert KeptAt(s.store, st, id); }
  }

  /** With the documents and the log as they were, only the transactions matter. */
  lemma SameRest(start: Serial, s: Session, s': Session)
    requires Good(start, s) && SameData(s.store, s'.store) && s'.log == s.log && GoodTransactions(s')
    ensures Good(start, s')
  {
    hide GoodHistory, GoodTransactions, Replay, ReplayTo, GetAt, Current;
  }

  lemma KeptGood(start: Serial, s: Session, st: Store)
    requires Good(start, s) && SameData(s.store, st) && Kept(s.store, st)
    ensures Good(start, s.(store := st))
  {
    hide GetAt, DbAt, Rows;
    var s' := s.(store := st);
    forall id | Usable(st, id)
      ensures GoodTransaction(st, SeenBy(s', id), id) && GoodQueries(st, AnswersTo(s', id), id)
    {
      assert KeptAt(s.store, st, id);
      assert GoodTransaction(s.store, SeenBy(s, id), id) && GoodQueries(s.store, AnswersTo(s, id), id);
    }
    KeptKnown(s, st);
  }

  lemma BeginGood(start: Serial, s: Session, readOnly: bool, version: nat, readTime: int, snapshot: Moment, now: int)
    requires Good(start, s) && s.store.floor <= version <= s.store.version
    ensures Good(start, s.(store := Begin(s.store, readOnly, version, readTime, snapshot, now).0))
  {
    var s' := s.(store := Begin(s.store, readOnly, version, readTime, snapshot, now).0);
    hide GetAt, DbAt, Rows;
    forall id | Usable(s'.store, id)
      ensures GoodTransaction(s'.store, SeenBy(s', id), id) && GoodQueries(s'.store, AnswersTo(s', id), id)
    {
      if id != s'.store.nextTx {
        assert GoodTransaction(s.store, SeenBy(s, id), id) && GoodQueries(s.store, AnswersTo(s, id), id);
      }
    }
  }

  lemma TouchedGood(start: Serial, s: Session, id: TxId, now: int, i: TxId)
    requires Good(start, s)
    requires var st := Touch(s.store, id, now); Usable(st, i)
    ensures var st := Touch(s.store, id, now);
            GoodTransaction(st, SeenBy(s, i), i) && GoodQueries(st, AnswersTo(s, i), i)
  {
    hide GetAt, DbAt, Rows, GoodLog, GoodHistory;
    assert Usable(s.store, i);
    assert GoodTransaction(s.store, SeenBy(s, i), i) && GoodQueries(s.store, AnswersTo(s, i), i);
  }

  lemma TouchKnown(s: Store, id: TxId, now: int)
    ensures Touch(s, id, now).txs.Keys == s.txs.Keys && Touch(s, id, now).nextTx == s.nextTx
    ensures SameData(s, Touch(s, id, now))
  {
  }

  lemma TouchGood(start: Serial, s: Session, id: TxId, now: int)
    requires Good(start, s)
    ensures Good(start, s.(store := Touch(s.store, id, now)))
  {
    hide Touch, GoodTransaction, GoodQueries, GoodLog, GoodHistory;
    var s' := s.(store := Touch(s.store, id, now));
    TouchKnown(s.store, id, now);
    forall i | Usable(s'.store, i)
      ensures GoodTransaction(s'.store, SeenBy(s', i), i) && GoodQueries(s'.store, AnswersTo(s', i), i)
    {
      TouchedGood(start, s, id, now, i);
    }
    SameRest(start, s, s');
  }

  /** The step from the touched transaction to the one that has read `p`. */
  ghost predicate ReadOne(s1: Session, s': Session, id: TxId, p: Path)
    requires id in s1.store.txs
  {
    var t := s1.store.txs[id];
    var d := GetAt(s1.store.history, p, t.readVersion);
    && s'.store == s1.store.(txs := s'.store.txs) && s'.log == s1.log && s'.answers == s1.answers
    && s'.store.txs == s1.store.txs[id := if t.readOnly then t else t.(readSet := t.readSet[p := VersionOf(d)])]
    && s'.seen == s1.seen[id := SeenBy(s1, id)[p := d]]
  }

  lemma ReadShape(s: Session, id: TxId, p: Path, now: int)
    ensures var s1 := s.(store := Touch(s.store, id, now));
            var s' := ServeRead(s, id, p, now);
            if Usable(s1.store, id) then ReadOne(s1, s', id, p) && !s1.store.txs[id].snapshotPending else s' == s1
  {
    hide GetAt, Get;
    var s1 := s.(store := Touch(s.store, id, now));
    if Usable(s1.store, id) {
      var t := s1.store.txs[id];
      assert s1.store.txs[id := t] == s1.store.txs;
    }
  }

  lemma ReadOneGood(start: Serial, s1: Session, s': Session, id: TxId, p: Path)
    requires Good(start, s1) && Usable(s1.store, id) && !s1.store.txs[id].snapshotPending && ReadOne(s1, s', id, p)
    ensures GoodTransaction(s'.store, SeenBy(s', id), id) && GoodQueries(s'.store, AnswersTo(s', id), id)
  {
    hide GetAt, DbAt, Rows, GoodLog, GoodHistory;
    assert GoodTransaction(s1.store, SeenBy(s1, id), id) && GoodQueries(s1.store, AnswersTo(s1, id), id);
  }

  /** The other transactions of a session in which one went on. */
  lemma OthersGood(start: Serial, s1: Session, s': Session, id: TxId)
    requires Good(start, s1) && Usable(s1.store, id) && s'.store == s1.store.(txs := s'.store.txs) && s'.log == s1.log
    requires s'.store.txs.Keys == s1.store.txs.Keys && s'.seen.Keys <= s1.seen.Keys + {id}
    requires s'.answers.Keys <= s1.answers.Keys + {id}
    requires forall i :: i in s1.store.txs && i != id ==>
               && s'.store.txs[i] == s1.store.txs[i] && SeenBy(s', i) == SeenBy(s1, i) &&
                 AnswersTo(s', i) == AnswersTo(s1, i)
    requires Usable(s'.store, id) ==>
               GoodTransaction(s'.store, SeenBy(s', id), id) && GoodQueries(s'.store, AnswersTo(s', id), id)
    ensures Good(start, s')
  {
    hide GetAt, DbAt, Rows, GoodLog, GoodHistory;
    forall i | Usable(s'.store, i)
      ensures GoodTransaction(s'.store, SeenBy(s', i), i) && GoodQueries(s'.store, AnswersTo(s', i), i)
    {
      if i != id {
        assert GoodTransaction(s1.store, SeenBy(s1, i), i) && GoodQueries(s1.store, AnswersTo(s1, i), i);
      }
    }
    SameRest(start, s1, s');
  }

  lemma ReadGood(start: Serial, s: Session, id: TxId, p: Path, now: int)
    requires Good(start, s)
    ensures Good(start, ServeRead(s, id, p, now))
  {
    hide GetAt, Good, Touch, ServeRead, GoodTransaction, GoodQueries;
    TouchGood(start, s, id, now);
    ReadShape(s, id, p, now);
    var s1 := s.(store := Touch(s.store, id, now));
    if Usable(s1.store, id) {
      ReadOneGood(start, s1, ServeRead(s, id, p, now), id, p);
      OthersGood(start, s1, ServeRead(s, id, p, now), id);
    }
  }

  /** An accepted read-write commit had read the current documents, all of them. */
  lemma AcceptedReadsAreCurrent(start: Serial, s: Session, writes: seq<Write>, id: TxId, now: int)
    requires Good(start, s) && id in s.store.txs && !s.store.txs[id].readOnly
    requires Commit(s.store, writes, Some(id), now).1.Done?
    ensures Usable(s.store, id)
    ensures ReadsFrom(Current(s.store.history), SeenBy(s, id))
  {
    DoneIsAdmitted(s.store, writes, Some(id), now);
    var h := s.store.history;
    assert GoodTransaction(s.store, SeenBy(s, id), id);
    forall p | p in SeenBy(s, id) ensures Lookup(Current(h), p) == SeenBy(s, id)[p] {
      assert p in s.store.txs[id].readSet;
      SameVersionSameDocument(Retained(h, p), s.store.txs[id].readVersion);
      CurrentIsLatest(h, p);
    }
  }

  // ----- Queries -----

  lemma {:induction false} PickedFrom(range: Db, paths: seq<Path>, i: nat)
    requires i < |Picked(range, paths)|
    ensures var row := Picked(range, paths)[i]; row.0 in range && row.1 == range[row.0]
  {
    var head := if paths[0] in range then [(paths[0], range[paths[0]])] else [];
    if i >= |head| { PickedFrom(range, paths[1..], i - |head|); }
  }

  /** Every row is a document of the database. */
  lemma RowIsDocument(q: Query, db: Db, i: nat)
    requires i < |Rows(q, db)|
    ensures Lookup(db, Rows(q, db)[i].0) == Some(Rows(q, db)[i].1)
  {
    PickedFrom(Range(q, db), q.pick(Range(q, db)), i);
  }

  /** Rows of one history with the same names and versions are the same rows. */
  lemma SameVersionsSameRows(h: History, version: nat, q: Query, v: nat)
    requires GoodHistory(h, version)
    requires Versions(Rows(q, Current(h))) == Versions(Rows(q, DbAt(h, v)))
    ensures Rows(q, Current(h)) == Rows(q, DbAt(h, v))
  {
    var now, then_ := Rows(q, Current(h)), Rows(q, DbAt(h, v));
    assert |now| == |Versions(now)| == |then_|;
    forall i | 0 <= i < |now| ensures now[i] == then_[i] {
      assert Versions(now)[i] == Versions(then_)[i];
      var p := now[i].0;
      RowIsDocument(q, Current(h), i);
      RowIsDocument(q, DbAt(h, v), i);
      CurrentIsLatest(h, p);
      DbAtIs(h, v, p);
      assert p in h && GoodEntries(h[p], version);
      SameVersionSameDocument(Retained(h, p), v);
    }
  }

  /** An accepted read-write commit had been answered what the current documents answer. */
  lemma AcceptedAnswersAreCurrent(start: Serial, s: Session, writes: seq<Write>, id: TxId, now: int)
    requires Good(start, s) && id in s.store.txs && !s.store.txs[id].readOnly
    requires Commit(s.store, writes, Some(id), now).1.Done?
    ensures Usable(s.store, id)
    ensures AnswersFrom(Current(s.store.history), AnswersTo(s, id))
  {
    hide Rows, Commit, Current, DbAt, GoodHistory;
    DoneIsAdmitted(s.store, writes, Some(id), now);
    var t, answers := s.store.txs[id], AnswersTo(s, id);
    assert GoodQueries(s.store, answers, id);
    forall i | 0 <= i < |answers| ensures Rows(answers[i].query, Current(s.store.history)) == answers[i].rows {
      assert t.queries[i] == Ran(answers[i].query, Versions(answers[i].rows));
      assert !QueryBehind(s.store.history, t.queries[i]);
      SameVersionsSameRows(s.store.history, s.store.version, answers[i].query, t.readVersion);
    }
  }

  lemma {:induction false} NotedIs(readSet: map<Path, Option<nat>>, rows: seq<Row>, p: Path)
    ensures p in Noted(readSet, rows) <==> p in readSet || p in RowPaths(rows)
    ensures p in readSet && p !in RowPaths(rows) ==> Noted(readSet, rows)[p] == readSet[p]
    ensures p in RowPaths(rows) ==>
            exists i :: 0 <= i < |rows| && rows[i].0 == p && Noted(readSet, rows)[p] == Some(rows[i].1.version)
  {
    if rows != [] {
      var n := |rows| - 1;
      NotedIs(readSet, rows[..n], p);
      RowPathsAppend(rows);
    }
  }

  lemma RowPathsAppend(rows: seq<Row>)
    requires rows != []
    ensures RowPaths(rows) == RowPaths(rows[..|rows| - 1]) + {rows[|rows| - 1].0}
  {
    var n := |rows| - 1;
    assert rows == rows[..n] + [rows[n]];
  }

  lemma {:induction false} ToldIs(seen: map<Path, Option<Document>>, rows: seq<Row>, p: Path)
    ensures p in Told(seen, rows) <==> p in seen || p in RowPaths(rows)
    ensures p in seen && p !in RowPaths(rows) ==> Told(seen, rows)[p] == seen[p]
    ensures p in RowPaths(rows) ==>
            exists i :: 0 <= i < |rows| && rows[i].0 == p && Told(seen, rows)[p] == Some(rows[i].1)
  {
    if rows != [] {
      var n := |rows| - 1;
      ToldIs(seen, rows[..n], p);
      RowPathsAppend(rows);
    }
  }

  /** The rows of an answer are recorded as reads of the snapshot. */
  lemma RowsAreReads(h: History, v: nat, q: Query, readSet: map<Path, Option<nat>>, seen: map<Path, Option<Document>>)
    requires forall p :: p in seen ==> seen[p] == GetAt(h, p, v)
    requires forall p :: p in readSet ==> readSet[p] == VersionOf(GetAt(h, p, v))
    ensures var rows := Rows(q, DbAt(h, v));
            && (forall p :: p in Told(seen, rows) ==> Told(seen, rows)[p] == GetAt(h, p, v))
            && (forall p :: p in Noted(readSet, rows) ==> Noted(readSet, rows)[p] == VersionOf(GetAt(h, p, v)))
  {
    hide Rows, DbAt, GetAt;
    var rows := Rows(q, DbAt(h, v));
    forall i | 0 <= i < |rows| ensures GetAt(h, rows[i].0, v) == Some(rows[i].1) {
      RowIsDocument(q, DbAt(h, v), i);
      DbAtIs(h, v, rows[i].0);
    }
    forall p | p in Told(seen, rows) ensures Told(seen, rows)[p] == GetAt(h, p, v) { ToldIs(seen, rows, p); }
    forall p | p in Noted(readSet, rows) ensures Noted(readSet, rows)[p] == VersionOf(GetAt(h, p, v)) {
      NotedIs(readSet, rows, p);
    }
  }

  lemma SameKeys(readSet: map<Path, Option<nat>>, seen: map<Path, Option<Document>>, rows: seq<Row>)
    requires readSet.Keys == seen.Keys
    ensures Noted(readSet, rows).Keys == Told(seen, rows).Keys
  {
    forall p ensures p in Noted(readSet, rows) <==> p in Told(seen, rows) {
      NotedIs(readSet, rows, p);
      ToldIs(seen, rows, p);
    }
  }

  /** The answered transaction is as it should be. */
  lemma AnsweredGood(start: Serial, s1: Session, s': Session, id: TxId, q: Query)
    requires Good(start, s1) && Usable(s1.store, id) && !s1.store.txs[id].snapshotPending
    requires Answered(s1, s', id, q)
    ensures GoodTransaction(s'.store, SeenBy(s', id), id) && GoodQueries(s'.store, AnswersTo(s', id), id)
  {
    hide Rows, DbAt, GetAt, GoodLog, GoodHistory;
    var t := s1.store.txs[id];
    assert GoodTransaction(s1.store, SeenBy(s1, id), id) && GoodQueries(s1.store, AnswersTo(s1, id), id);
    RowsAreReads(s1.store.history, t.readVersion, q, t.readSet, SeenBy(s1, id));
    if !t.readOnly { SameKeys(t.readSet, SeenBy(s1, id), Rows(q, DbAt(s1.store.history, t.readVersion))); }
  }

  /** The step from the touched transaction to the answered one. */
  ghost predicate Answered(s1: Session, s': Session, id: TxId, q: Query)
    requires id in s1.store.txs
  {
    var t := s1.store.txs[id];
    var rows := Rows(q, DbAt(s1.store.history, t.readVersion));
    && s'.store == s1.store.(txs := s'.store.txs) && s'.log == s1.log
    && s'.store.txs == s1.store.txs[id :=
         if t.readOnly then t else
           t.(readSet := Noted(t.readSet, rows), queries := t.queries + [Ran(q, Versions(rows))])]
    && s'.seen == s1.seen[id := Told(SeenBy(s1, id), rows)]
    && s'.answers == s1.answers[id := AnswersTo(s1, id) + [Answer(q, rows)]]
  }

  lemma QueryShape(s: Session, id: TxId, q: Query, now: int)
    ensures var s1 := s.(store := Touch(s.store, id, now));
            var s' := ServeQuery(s, id, q, now);
            if Usable(s1.store, id) then Answered(s1, s', id, q) && !s1.store.txs[id].snapshotPending else s' == s1
  {
    hide Rows, DbAt, Current, Get;
    var s1 := s.(store := Touch(s.store, id, now));
    if Usable(s1.store, id) {
      var t := s1.store.txs[id];
      assert s1.store.txs[id := t] == s1.store.txs;
    }
  }

  lemma QueryGood(start: Serial, s: Session, id: TxId, q: Query, now: int)
    requires Good(start, s)
    ensures Good(start, ServeQuery(s, id, q, now))
  {
    hide Good, Rows, DbAt, Told, Noted, Versions, ServeQuery, Touch, GoodTransaction, GoodQueries;
    TouchGood(start, s, id, now);
    QueryShape(s, id, q, now);
    var s1 := s.(store := Touch(s.store, id, now));
    if Usable(s1.store, id) {
      AnsweredGood(start, s1, ServeQuery(s, id, q, now), id, q);
      OthersGood(start, s1, ServeQuery(s, id, q, now), id);
    }
  }

  /** Publishing under the next version hides nothing from the snapshots already taken. */
  lemma SnapshotSurvives(h: History, stage: Stage, version: nat, p: Path, v: nat)
    requires v <= version
    ensures GetAt(PublishHistory(h, stage, version + 1), p, v) == GetAt(h, p, v)
  {
    PublishedHistory(h, stage, version + 1, p);
    if Changes(stage, p) {
      AsOfAppend(Retained(h, p), Entry(version + 1, stage[p].current), v);
    } else {
      assert Retained(h, p) + [] == Retained(h, p);
    }
  }

  /** The documents and the version after a commit staged as `stage`. */
  ghost predicate Extends(a: Store, b: Store, stage: Stage) {
    && GoodStage(Current(a.history), stage, a.version + 1)
    && b.floor == a.floor
    && (if AnyChange(stage)
        then b.version == a.version + 1 && b.history == PublishHistory(a.history, stage, a.version + 1)
        else b.version == a.version && b.history == a.history)
  }

  lemma ExtendedGood(a: Store, b: Store, stage: Stage)
    requires GoodHistory(a.history, a.version) && Extends(a, b, stage)
    ensures GoodHistory(b.history, b.version) && a.version <= b.version
  {
    hide PublishHistory, GoodEntries, GoodStage;
    if AnyChange(stage) { PublishedGood(a.history, stage, Current(a.history), a.version); }
  }

  lemma ExtendedSnapshot(a: Store, b: Store, stage: Stage, p: Path, v: nat)
    requires Extends(a, b, stage) && v <= a.version
    ensures GetAt(b.history, p, v) == GetAt(a.history, p, v)
  {
    if AnyChange(stage) { SnapshotSurvives(a.history, stage, a.version, p, v); }
  }

  function StageOf(s: Store, e: LogEntry): Result<Stage, Error> {
    StageAll(Current(s.history), e.writes, e.time, s.version + 1)
  }

  lemma ReplayAppend(start: Serial, log: seq<LogEntry>, e: LogEntry)
    requires Replay(start, log).Some?
    ensures Replay(start, log + [e]) == Execute(Replay(start, log).value, e)
  {
    assert (log + [e])[..|log|] == log;
  }

  lemma ExecuteExtends(a: Store, b: Store, e: LogEntry)
    requires StageOf(a, e).Ok? && Extends(a, b, StageOf(a, e).value)
    requires ReadsFrom(Current(a.history), e.seen) && AnswersFrom(Current(a.history), e.answers)
    ensures Execute(Serial(Current(a.history), a.version), e) == Some(Serial(Current(b.history), b.version))
  {
    hide PublishHistory, Publish, Current, StageAll, GoodStage, ReadsFrom, AnswersFrom;
    PublishedCurrent(a.history, StageOf(a, e).value, a.version + 1);
  }

  /** Replaying to a version reached or passed by one more commit. */
  lemma ReplayedTo(start: Serial, log: seq<LogEntry>, e: LogEntry, v: nat, after: Serial)
    requires Replay(start, log + [e]) == Some(after)
    ensures ReplayTo(start, log + [e], v) == if after.version <= v then after.db else ReplayTo(start, log, v)
  {
    hide Replay;
    assert (log + [e])[..|log|] == log;
  }

  lemma CurrentAt(h: History, version: nat, p: Path, v: nat)
    requires GoodHistory(h, version) && version <= v
    ensures GetAt(h, p, v) == Lookup(Current(h), p)
  {
    AsOfNow(Retained(h, p), v);
    CurrentIsLatest(h, p);
  }

  lemma ExtendedAt(start: Serial, s: Session, st: Store, e: LogEntry, v: nat, p: Path)
    requires Good(start, s) && StageOf(s.store, e).Ok? && Extends(s.store, st, StageOf(s.store, e).value)
    requires Replay(start, s.log + [e]) == Some(Serial(Current(st.history), st.version))
    requires GoodHistory(st.history, st.version) && s.store.version <= st.version
    requires st.floor <= v && start.version <= v
    ensures GetAt(st.history, p, v) == Lookup(ReplayTo(start, s.log + [e], v), p)
  {
    hide Replay, ReplayTo, Current, StageOf, GoodHistory, GoodTransactions, GetAt, Lookup, GoodStage, PublishHistory;
    ReplayedTo(start, s.log, e, v, Serial(Current(st.history), st.version));
    if st.version <= v {
      CurrentAt(st.history, st.version, p, v);
    } else {
      ExtendedSnapshot(s.store, st, StageOf(s.store, e).value, p, v);
    }
  }

  lemma ExtendedLog(start: Serial, s: Session, st: Store, e: LogEntry)
    requires Good(start, s) && StageOf(s.store, e).Ok? && Extends(s.store, st, StageOf(s.store, e).value)
    requires ReadsFrom(Current(s.store.history), e.seen) && AnswersFrom(Current(s.store.history), e.answers)
    ensures GoodLog(start, s.(store := st, log := s.log + [e]))
  {
    ExtendedGood(s.store, st, StageOf(s.store, e).value);
    ReplayAppend(start, s.log, e);
    ExecuteExtends(s.store, st, e);
    forall v: nat, p | st.floor <= v && start.version <= v
      ensures GetAt(st.history, p, v) == Lookup(ReplayTo(start, s.log + [e], v), p)
    {
      ExtendedAt(start, s, st, e, v, p);
    }
  }

  lemma ExtendedTransactions(start: Serial, s: Session, st: Store, stage: Stage, log: seq<LogEntry>)
    requires Good(start, s) && Extends(s.store, st, stage) && Kept(s.store, st)
    ensures GoodTransactions(s.(store := st, log := log))
  {
    var s' := s.(store := st, log := log);
    KeptKnown(s, st);
    forall id | Usable(st, id)
      ensures GoodTransaction(st, SeenBy(s', id), id) && GoodQueries(st, AnswersTo(s', id), id)
    {
      assert KeptAt(s.store, st, id);
      assert GoodTransaction(s.store, SeenBy(s, id), id) && GoodQueries(s.store, AnswersTo(s, id), id);
      forall p
        ensures GetAt(st.history, p, st.txs[id].readVersion) == GetAt(s.store.history, p, st.txs[id].readVersion)
      {
        ExtendedSnapshot(s.store, st, stage, p, st.txs[id].readVersion);
      }
      SameDbAt(st.history, s.store.history, st.txs[id].readVersion);
    }
  }

  lemma EndedKeeps(s: Store, own: Option<TxId>, state: TxState)
    requires state != Active
    ensures SameData(s, Ended(s, own, state)) && Kept(s, Ended(s, own, state))
  {
    if own.Some? { FinishKeeps(s, own.value, state); }
  }

  lemma ApplyExtends(a: Store, writes: seq<Write>, own: Option<TxId>, now: int, e: LogEntry)
    requires Apply(a, writes, own, now).1.Done?
    requires e.writes == writes && e.time == Apply(a, writes, own, now).1.time
    ensures StageOf(a, e).Ok? && Extends(a, Apply(a, writes, own, now).0, StageOf(a, e).value)
    ensures Kept(a, Apply(a, writes, own, now).0)
  {
    hide StageAll, Current, GoodStage, PublishHistory;
    var (time, consumed) := CommitTime(a, writes, own, now);
    StagedVersions(Current(a.history), writes, time, a.version + 1);
    var a1 := a.(lastCommitTime := if consumed then Some(time) else a.lastCommitTime);
    var a2 := Visible(a1, StageOf(a, e).value);
    EndedKeeps(a2, own, Committed);
    KeptTransitive(a, a2, Ended(a2, own, Committed));
  }

  lemma DoneExtends(s: Store, writes: seq<Write>, own: Option<TxId>, now: int, e: LogEntry)
    requires Commit(s, writes, own, now).1.Done?
    requires e.writes == writes && e.time == Commit(s, writes, own, now).1.time
    ensures StageOf(s, e).Ok? && Extends(s, Commit(s, writes, own, now).0, StageOf(s, e).value)
    ensures Kept(s, Commit(s, writes, own, now).0)
  {
    DoneIsAdmitted(s, writes, own, now);
    var a := Admitted(s, writes, own);
    ApplyExtends(a, writes, own, now, e);
    KeptTransitive(s, a, Commit(s, writes, own, now).0);
  }

  lemma CommitGood(start: Serial, s: Session, writes: seq<Write>, own: Option<TxId>, now: int)
    requires Good(start, s)
    ensures Good(start, ServeCommit(s, writes, own, now))
  {
    var (st, o) := Commit(s.store, writes, own, now);
    if o.Refused? {
      RefusedKeeps(s.store, writes, own, now);
      KeptGood(start, s, st);
    } else {
      var readOnly := own.Some? && own.value in s.store.txs && s.store.txs[own.value].readOnly;
      var e := LoggedAs(s, writes, own, o.time);
      DoneExtends(s.store, writes, own, now, e);
      if readOnly {
        DoneIsAdmitted(s.store, writes, own, now);
        KeptGood(start, s, st);
      } else {
        if own.Some? {
          DoneIsAdmitted(s.store, writes, own, now);
          AcceptedReadsAreCurrent(start, s, writes, own.value, now);
          AcceptedAnswersAreCurrent(start, s, writes, own.value, now);
        }
        ExtendedLog(start, s, st, e);
        ExtendedGood(s.store, st, StageOf(s.store, e).value);
        ExtendedTransactions(start, s, st, StageOf(s.store, e).value, s.log + [e]);
      }
    }
  }

  // ----- Compaction -----

  lemma {:induction false} CountIsPrefix(es: seq<Entry>, v: nat, i: nat)
    requires Sorted(es) && i < |es|
    ensures es[i].version <= v <==> i < CountUpTo(es, v)
  {
    if es[0].version <= v && i > 0 { CountIsPrefix(es[1..], v, i - 1); }
    if es[0].version > v && i > 0 { assert es[0].version < es[i].version; }
  }

  lemma {:induction false} AsOfSuffix(es: seq<Entry>, cut: nat, v: nat)
    requires Sorted(es) && cut < |es| && es[cut].version <= v
    ensures AsOf(es[cut..], v) == AsOf(es, v)
  {
    var n := |es| - 1;
    assert es[cut..][|es[cut..]| - 1] == es[n];
    if es[n].version > v {
      assert cut < n;
      assert es[cut..][..|es[cut..]| - 1] == es[..n][cut..];
      AsOfSuffix(es[..n], cut, v);
    }
  }

  /** Compacting a path changes no read at or above the floor. */
  lemma CompactedEntries(es: seq<Entry>, floor: nat, v: nat)
    requires Sorted(es) && floor <= v
    ensures AsOf(CompactEntries(es, floor), v) == AsOf(es, v)
  {
    var n := CountUpTo(es, floor);
    if n > 0 {
      CountIsPrefix(es, floor, n - 1);
      AsOfSuffix(es, n - 1, v);
    } else {
      assert es[0..] == es;
    }
  }

  lemma CompactedEntriesGood(es: seq<Entry>, floor: nat, version: nat)
    requires GoodEntries(es, version) && CompactEntries(es, floor) != []
    ensures GoodEntries(CompactEntries(es, floor), version)
  {
  }

  lemma CompactedAt(h: History, floor: nat, version: nat, p: Path, v: nat)
    requires GoodHistory(h, version) && floor <= v
    ensures GetAt(CompactHistory(h, floor), p, v) == GetAt(h, p, v)
  {
    if p in h {
      CompactedEntries(h[p], floor, v);
      assert Retained(CompactHistory(h, floor), p) == CompactEntries(h[p], floor);
    }
  }

  lemma CompactedGood(h: History, floor: nat, version: nat)
    requires GoodHistory(h, version)
    ensures GoodHistory(CompactHistory(h, floor), version)
  {
    forall p | p in CompactHistory(h, floor) ensures GoodEntries(CompactHistory(h, floor)[p], version) {
      CompactedEntriesGood(h[p], floor, version);
    }
  }

  lemma CompactedCurrent(h: History, floor: nat, version: nat)
    requires GoodHistory(h, version) && floor <= version
    ensures Current(CompactHistory(h, floor)) == Current(h)
    ensures forall p :: Get(CompactHistory(h, floor), p) == Get(h, p)
  {
    var h' := CompactHistory(h, floor);
    CompactedGood(h, floor, version);
    forall p ensures Get(h', p) == Get(h, p) && Lookup(Current(h'), p) == Lookup(Current(h), p) {
      CompactedAt(h, floor, version, p, version);
      CurrentIsLatest(h', p);
      CurrentIsLatest(h, p);
      AsOfNow(Retained(h, p), version);
      AsOfNow(Retained(h', p), version);
    }
    SameDatabase(Current(h'), Current(h));
  }

  lemma CompactGood(start: Serial, s: Session, floor: nat)
    requires Good(start, s)
    ensures Good(start, s.(store := Compact(s.store, floor)))
  {
    if s.store.floor < floor <= s.store.version {
      var h := s.store.history;
      CompactedGood(h, floor, s.store.version);
      CompactedCurrent(h, floor, s.store.version);
      forall p, v: nat | floor <= v ensures GetAt(CompactHistory(h, floor), p, v) == GetAt(h, p, v) {
        CompactedAt(h, floor, s.store.version, p, v);
      }
      var s' := s.(store := Compact(s.store, floor));
      forall id | Usable(s'.store, id)
        ensures GoodTransaction(s'.store, SeenBy(s', id), id) && GoodQueries(s'.store, AnswersTo(s', id), id)
      {
        assert GoodTransaction(s.store, SeenBy(s, id), id) && GoodQueries(s.store, AnswersTo(s, id), id);
        SameDbAt(s'.store.history, h, s.store.txs[id].readVersion);
      }
    }
  }

  // ----- Runs -----

  lemma ConsumeKeeps(s: Store, previous: TxId)
    requires previous in s.txs
    ensures SameData(s, Consume(s, previous)) && Kept(s, Consume(s, previous))
  {
    var s1 := Finish(s, previous, RolledBack);
    FinishKeeps(s, previous, RolledBack);
    FinishKeeps(s, previous, Retried);
    FinishKeeps(s1, previous, Retried);
    KeptTransitive(s, s1, Finish(s1, previous, Retried));
  }

  lemma RetryGood(start: Serial, s: Session, previous: TxId, now: int)
    requires Good(start, s)
    ensures Good(start, s.(store := Retry(s.store, previous, now).0))
  {
    if Retry(s.store, previous, now).1.Ok? {
      ConsumeKeeps(s.store, previous);
      KeptGood(start, s, Consume(s.store, previous));
      BeginGood(start, s.(store := Consume(s.store, previous)), false, s.store.version, ReadTime(s.store, now),
                AtFirstUse, now);
    }
  }

  lemma ServeGood(start: Serial, s: Session, r: Request)
    requires Good(start, s)
    ensures Good(start, Serve(s, r))
  {
    match r
    case BeginTransaction(readOnly, snapshot, now) =>
      BeginGood(start, s, readOnly, s.store.version, ReadTime(s.store, now), snapshot, now);
    case BeginAt(version, readTime, now) =>
      if s.store.floor <= version <= s.store.version { BeginGood(start, s, true, version, readTime, AtBegin, now); }
    case GetDocument(id, path, now) => ReadGood(start, s, id, path, now);
    case AskQuery(id, query, now) => QueryGood(start, s, id, query, now);
    case CommitWrites(writes, own, now) => CommitGood(start, s, writes, own, now);
    case RollbackTransaction(id) =>
      FinishKeeps(s.store, id, RolledBack);
      KeptGood(start, s, Rollback(s.store, id));
    case RetryTransaction(previous, now) => RetryGood(start, s, previous, now);
    case ExpireTransaction(id) =>
      FinishKeeps(s.store, id, Finished);
      KeptGood(start, s, Expire(s.store, id));
    case CompactTo(floor) => CompactGood(start, s, floor);
  }

  lemma FreshGood(s: Session)
    requires Fresh(s)
    ensures Good(StartOf(s), s)
  {
    forall v: nat, p | s.store.version <= v
      ensures GetAt(s.store.history, p, v) == Lookup(ReplayTo(StartOf(s), s.log, v), p)
    {
      AsOfNow(Retained(s.store.history, p), v);
      CurrentIsLatest(s.store.history, p);
    }
  }

  lemma {:induction false} RunGood(s: Session, requests: seq<Request>)
    requires Fresh(s)
    ensures Good(StartOf(s), ServeAll(s, requests))
  {
    if requests == [] {
      FreshGood(s);
    } else {
      RunGood(s, requests[..|requests| - 1]);
      ServeGood(StartOf(s), ServeAll(s, requests[..|requests| - 1]), requests[|requests| - 1]);
    }
  }

  /** In a serial execution each commit finds what it had been told on the database before it. */
  lemma {:induction false} SerialReads(x: Serial, log: seq<LogEntry>, k: nat)
    requires Replay(x, log).Some? && k < |log|
    ensures Replay(x, log[..k]).Some?
    ensures var db := Replay(x, log[..k]).value.db;
            && (forall p :: p in log[k].seen ==> Lookup(db, p) == log[k].seen[p])
            && (forall i :: 0 <= i < |log[k].answers| ==> Rows(log[k].answers[i].query, db) == log[k].answers[i].rows)
  {
    hide Rows, StageAll, Publish;
    var n := |log| - 1;
    if k < n {
      assert log[..n][..k] == log[..k];
      SerialReads(x, log[..n], k);
    }
  }

  /**
   Serializability: whatever the interleaving, executing the accepted commits alone and in
   their order gives every one of them the documents it had been told and the rows its queries
   had been answered, and leaves the database and the version that the store holds.
   */
  lemma Serializable(s: Session, requests: seq<Request>)
    requires Fresh(s)
    ensures var s' := ServeAll(s, requests);
            Replay(StartOf(s), s'.log) == Some(Serial(Current(s'.store.history), s'.store.version))
    ensures var log := ServeAll(s, requests).log;
            forall k :: 0 <= k < |log| ==>
              && Replay(StartOf(s), log[..k]).Some?
              && var db := Replay(StartOf(s), log[..k]).value.db;
              && (forall p :: p in log[k].seen ==> Lookup(db, p) == log[k].seen[p])
              && (forall i :: 0 <= i < |log[k].answers| ==> Rows(log[k].answers[i].query, db) == log[k].answers[i].rows)
  {
    hide ServeAll, Replay, Rows, Fresh;
    RunGood(s, requests);
    var log := ServeAll(s, requests).log;
    forall k | 0 <= k < |log|
      ensures && Replay(StartOf(s), log[..k]).Some?
              && var db := Replay(StartOf(s), log[..k]).value.db;
              && (forall p :: p in log[k].seen ==> Lookup(db, p) == log[k].seen[p])
              && (forall i :: 0 <= i < |log[k].answers| ==> Rows(log[k].answers[i].query, db) == log[k].answers[i].rows)
    {
      SerialReads(StartOf(s), log, k);
    }
  }

  /** A snapshot, however late it is read, is the serial execution at the snapshot's version. */
  lemma SnapshotsAreSerial(s: Session, requests: seq<Request>, id: TxId, p: Path)
    requires Fresh(s)
    requires var s' := ServeAll(s, requests); Usable(s'.store, id) && p in SeenBy(s', id)
    requires ServeAll(s, requests).store.txs[id].readVersion >= s.store.version
    ensures var s' := ServeAll(s, requests);
            SeenBy(s', id)[p] == Lookup(ReplayTo(StartOf(s), s'.log, s'.store.txs[id].readVersion), p)
  {
    RunGood(s, requests);
    var s' := ServeAll(s, requests);
    assert GoodTransaction(s'.store, SeenBy(s', id), id);
  }

  lemma ReplayedDbAt(start: Serial, s: Session, v: nat)
    requires Good(start, s) && s.store.floor <= v && start.version <= v
    ensures DbAt(s.store.history, v) == ReplayTo(start, s.log, v)
  {
    hide DbAt, GetAt, ReplayTo, GoodHistory, GoodTransactions;
    forall p ensures Lookup(DbAt(s.store.history, v), p) == Lookup(ReplayTo(start, s.log, v), p) {
      DbAtIs(s.store.history, v, p);
    }
    SameDatabase(DbAt(s.store.history, v), ReplayTo(start, s.log, v));
  }

  /** So is every answer to a query. */
  lemma AnswersAreSerial(s: Session, requests: seq<Request>, id: TxId, i: nat)
    requires Fresh(s)
    requires var s' := ServeAll(s, requests); Usable(s'.store, id) && i < |AnswersTo(s', id)|
    requires ServeAll(s, requests).store.txs[id].readVersion >= s.store.version
    ensures var s' := ServeAll(s, requests);
            var answer := AnswersTo(s', id)[i];
            answer.rows == Rows(answer.query, ReplayTo(StartOf(s), s'.log, s'.store.txs[id].readVersion))
  {
    hide Rows, DbAt, ReplayTo, ServeAll;
    RunGood(s, requests);
    var s' := ServeAll(s, requests);
    assert GoodQueries(s'.store, AnswersTo(s', id), id);
    ReplayedDbAt(StartOf(s), s', s'.store.txs[id].readVersion);
  }
}
