/**
 The locks. The documents a transaction has read and the ranges it has queried stay as they were
 when it did, so the check at its commit refuses exactly the transactions with a read or a query
 that was behind at the time.
 */
module Locking {
  import opened Common
  import opened Store
  import opened Sessions
  import opened Serializability
  import opened Ranges

  // ----- Freshness of reads -----

  predicate Behind(s: Store, id: TxId, p: Path)
    requires id in s.txs && p in s.txs[id].readSet
  {
    VersionOf(Get(s.history, p)) != s.txs[id].readSet[p]
  }

  predicate Live(s: Store, id: TxId) {
    Usable(s, id) && !s.txs[id].readOnly
  }

  ghost predicate PinnedReads(s: Session) {
    && (forall id, p :: (id, p) in s.stale ==> id in s.seen && p in s.seen[id])
    && (forall id, p :: Usable(s.store, id) && p in s.store.txs[id].readSet ==>
          (Behind(s.store, id, p) <==> (id, p) in s.stale))
  }

  ghost predicate PinnedQueries(s: Session) {
    && (forall id, i :: (id, i) in s.staleQueries ==> i < |AnswersTo(s, id)|)
    && (forall id, i: nat :: Usable(s.store, id) && i < |s.store.txs[id].queries| ==>
          (QueryBehind(s.store.history, s.store.txs[id].queries[i]) <==> (id, i) in s.staleQueries))
  }

  /** What was fresh is fresh, and what was behind is behind. */
  ghost predicate Pinned(s: Session) {
    PinnedReads(s) && PinnedQueries(s)
  }

  ghost predicate Steady(start: Serial, s: Session) {
    Good(start, s) && Pinned(s)
  }

  lemma KeptPinned(s: Session, st: Store)
    requires Pinned(s) && SameData(s.store, st) && Kept(s.store, st)
    ensures Pinned(s.(store := st))
  {
    hide QueryBehind, Get;
    forall id, p | Usable(st, id) && p in st.txs[id].readSet
      ensures Behind(st, id, p) <==> (id, p) in s.stale
    {
      assert KeptAt(s.store, st, id);
      assert Behind(s.store, id, p) <==> (id, p) in s.stale;
    }
    forall id, i: nat | Usable(st, id) && i < |st.txs[id].queries|
      ensures QueryBehind(st.history, st.txs[id].queries[i]) <==> (id, i) in s.staleQueries
    {
      assert KeptAt(s.store, st, id);
    }
  }

  /** A commit leaves the documents it does not name. */
  lemma UnwrittenStays(s: Store, writes: seq<Write>, own: Option<TxId>, now: int, p: Path)
    requires p !in Written(writes) || Commit(s, writes, own, now).1.Refused?
    ensures Get(Commit(s, writes, own, now).0.history, p) == Get(s.history, p)
  {
    var (s', o) := Commit(s, writes, own, now);
    if o.Refused? {
      RefusedKeeps(s, writes, own, now);
    } else {
      var e := LogEntry(map[], [], writes, o.time);
      DoneExtends(s, writes, own, now, e);
      StagedVersions(Current(s.history), writes, o.time, s.version + 1);
      var stage := StageOf(s, e).value;
      if AnyChange(stage) {
        PublishedHistory(s.history, stage, s.version + 1, p);
        assert Retained(s.history, p) + [] == Retained(s.history, p);
      }
    }
  }

  lemma UnlockedPath(s: Store, id: TxId, p: Path, writes: seq<Write>)
    requires id in s.txs && p in s.txs[id].readSet && !Locks(s, id, writes)
    ensures p !in Written(writes)
  {
    assert p in s.txs[id].readSet.Keys * Written(writes) <==> p in Written(writes);
  }

  /** A surviving transaction held no lock on what an accepted commit wrote. */
  lemma SurvivorIsClear(s: Store, writes: seq<Write>, own: Option<TxId>, now: int, id: TxId)
    requires Commit(s, writes, own, now).1.Done? && Live(Commit(s, writes, own, now).0, id)
    ensures Usable(s, id) && SameSnapshot(s.txs[id], Commit(s, writes, own, now).0.txs[id])
    ensures !Locks(s, id, writes)
  {
    hide StageAll, Current, Locks;
    DoneIsAdmitted(s, writes, own, now);
    var a := Admitted(s, writes, own);
    ApplyExtends(a, writes, own, now, LogEntry(map[], [], writes, Commit(s, writes, own, now).1.time));
    assert KeptAt(a, Commit(s, writes, own, now).0, id) && KeptAt(s, a, id);
    ContentionUnlocks(s, writes, own, id);
    SameLocks(s, a, id, writes);
  }

  lemma SameLocks(a: Store, b: Store, id: TxId, writes: seq<Write>)
    requires a.history == b.history && id in a.txs && id in b.txs && SameSnapshot(a.txs[id], b.txs[id])
    ensures Locks(a, id, writes) == Locks(b, id, writes)
  {
    hide RangeLocks;
  }

  /** A commit changes no document that another surviving transaction has read. */
  lemma LockedDocumentStays(s: Store, writes: seq<Write>, own: Option<TxId>, now: int, id: TxId, p: Path)
    requires Commit(s, writes, own, now).1.Done?
    requires var s' := Commit(s, writes, own, now).0; Live(s', id) && p in s'.txs[id].readSet
    ensures Get(Commit(s, writes, own, now).0.history, p) == Get(s.history, p)
  {
    hide Commit, Locks, Get;
    SurvivorIsClear(s, writes, own, now, id);
    UnlockedPath(s, id, p, writes);
    UnwrittenStays(s, writes, own, now, p);
  }

  /**
   A commit changes no document in a range that another surviving transaction has queried, and
   no phantom enters it.
   */
  lemma LockedRangeStays(s: Store, writes: seq<Write>, own: Option<TxId>, now: int, id: TxId, i: nat)
    requires Commit(s, writes, own, now).1.Done?
    requires var s' := Commit(s, writes, own, now).0; Live(s', id) && i < |s'.txs[id].queries|
    ensures var s' := Commit(s, writes, own, now).0;
            var q := s'.txs[id].queries[i].query;
            Range(q, Current(s'.history)) == Range(q, Current(s.history))
  {
    hide Commit, RangeCovers, Current, Range, StageAll, PublishHistory, Publish;
    var (s', o) := Commit(s, writes, own, now);
    SurvivorIsClear(s, writes, own, now, id);
    assert !RangeCovers(s.history, s.txs[id].queries[i].query, writes);
    var e := LogEntry(map[], [], writes, o.time);
    DoneExtends(s, writes, own, now, e);
    UncoveredRangeStays(s.history, s.txs[id].queries[i].query, writes, o.time, s.version + 1);
    PublishedCurrent(s.history, StageOf(s, e).value, s.version + 1);
  }

  lemma CommitPinned(start: Serial, s: Session, writes: seq<Write>, own: Option<TxId>, now: int)
    requires Steady(start, s)
    ensures Pinned(ServeCommit(s, writes, own, now))
  {
    hide Good, Commit, Behind, QueryBehind;
    var (st, o) := Commit(s.store, writes, own, now);
    if o.Refused? {
      RefusedKeeps(s.store, writes, own, now);
      KeptPinned(s, st);
    } else {
      forall id, p | Usable(st, id) && p in st.txs[id].readSet
        ensures Behind(st, id, p) <==> (id, p) in s.stale
      {
        CommitKeepsRead(start, s, writes, own, now, id, p);
      }
      forall id, i: nat | Usable(st, id) && i < |st.txs[id].queries|
        ensures QueryBehind(st.history, st.txs[id].queries[i]) <==> (id, i) in s.staleQueries
      {
        CommitKeepsQuery(start, s, writes, own, now, id, i);
      }
    }
  }

  lemma SurvivorIsLive(start: Serial, s: Session, writes: seq<Write>, own: Option<TxId>, now: int, id: TxId)
    requires Good(start, s) && Commit(s.store, writes, own, now).1.Done? &&
             Usable(Commit(s.store, writes, own, now).0, id)
    ensures Usable(s.store, id) && SameSnapshot(s.store.txs[id], Commit(s.store, writes, own, now).0.txs[id])
    ensures s.store.txs[id].readOnly ==> s.store.txs[id].readSet == map[] && s.store.txs[id].queries == []
  {
    hide Commit, GoodHistory, GoodLog;
    DoneExtends(s.store, writes, own, now, LogEntry(map[], [], writes, Commit(s.store, writes, own, now).1.time));
    assert KeptAt(s.store, Commit(s.store, writes, own, now).0, id);
    assert GoodTransaction(s.store, SeenBy(s, id), id) && GoodQueries(s.store, AnswersTo(s, id), id);
  }

  lemma CommitKeepsRead(start: Serial, s: Session, writes: seq<Write>, own: Option<TxId>, now: int, id: TxId, p: Path)
    requires Steady(start, s) && Commit(s.store, writes, own, now).1.Done?
    requires var st := Commit(s.store, writes, own, now).0; Usable(st, id) && p in st.txs[id].readSet
    ensures Behind(Commit(s.store, writes, own, now).0, id, p) <==> (id, p) in s.stale
  {
    hide Good, Commit, Get;
    SurvivorIsLive(start, s, writes, own, now, id);
    LockedDocumentStays(s.store, writes, own, now, id, p);
    assert Behind(s.store, id, p) <==> (id, p) in s.stale;
  }

  lemma CommitKeepsQuery(start: Serial, s: Session, writes: seq<Write>, own: Option<TxId>, now: int, id: TxId, i: nat)
    requires Steady(start, s) && Commit(s.store, writes, own, now).1.Done?
    requires var st := Commit(s.store, writes, own, now).0; Usable(st, id) && i < |st.txs[id].queries|
    ensures var st := Commit(s.store, writes, own, now).0;
            QueryBehind(st.history, st.txs[id].queries[i]) <==> (id, i) in s.staleQueries
  {
    hide Good, Commit, Range, Current;
    SurvivorIsLive(start, s, writes, own, now, id);
    LockedRangeStays(s.store, writes, own, now, id, i);
    assert QueryBehind(s.store.history, s.store.txs[id].queries[i]) <==> (id, i) in s.staleQueries;
  }

  /** A read changes what is known of its own path only. */
  lemma ReadElsewhere(s: Session, id: TxId, p: Path, now: int, i: TxId, q: Path)
    requires var st := ServeRead(s, id, p, now).store; Usable(st, i) && q in st.txs[i].readSet && (i != id || q != p)
    ensures Usable(s.store, i) && q in s.store.txs[i].readSet
    ensures Behind(ServeRead(s, id, p, now).store, i, q) <==> Behind(s.store, i, q)
    ensures (i, q) in ServeRead(s, id, p, now).stale <==> (i, q) in s.stale
  {
    hide Get, GetAt, Touch, Read;
    TouchKeepsReads(s.store, id, now, i);
    TouchKnown(s.store, id, now);
    ReadShape(s, id, p, now);
  }

  lemma TouchKeepsReads(s: Store, id: TxId, now: int, i: TxId)
    ensures Usable(Touch(s, id, now), i) ==>
            && Usable(s, i) && Touch(s, id, now).txs[i].readSet == s.txs[i].readSet
            && Touch(s, id, now).txs[i].queries == s.txs[i].queries
  {
  }

  lemma ReadHere(start: Serial, s: Session, id: TxId, p: Path, now: int)
    requires Steady(start, s)
    requires var st := ServeRead(s, id, p, now).store; Usable(st, id) && p in st.txs[id].readSet
    ensures Behind(ServeRead(s, id, p, now).store, id, p) <==> (id, p) in ServeRead(s, id, p, now).stale
  {
    hide GoodHistory, GoodLog, Get, GetAt;
    TouchGood(start, s, id, now);
    var s1 := s.(store := Touch(s.store, id, now));
    assert GoodTransaction(s1.store, SeenBy(s1, id), id);
  }

  lemma StaleIsSeen(s: Session, id: TxId, p: Path, now: int)
    requires Pinned(s)
    ensures var s' := ServeRead(s, id, p, now); forall i, q :: (i, q) in s'.stale ==> i in s'.seen && q in s'.seen[i]
  {
    hide Read, Get, Behind;
  }

  lemma ReadPinned(start: Serial, s: Session, id: TxId, p: Path, now: int)
    requires Steady(start, s)
    ensures Pinned(ServeRead(s, id, p, now))
  {
    hide Good, ServeRead, Behind, QueryBehind;
    var s' := ServeRead(s, id, p, now);
    forall i, q | Usable(s'.store, i) && q in s'.store.txs[i].readSet
      ensures Behind(s'.store, i, q) <==> (i, q) in s'.stale
    {
      if i != id || q != p {
        ReadElsewhere(s, id, p, now, i, q);
      } else {
        ReadHere(start, s, id, p, now);
      }
    }
    StaleIsSeen(s, id, p, now);
    ReadKeepsQueries(s, id, p, now);
  }

  lemma ReadKeepsQueries(s: Session, id: TxId, p: Path, now: int)
    requires PinnedQueries(s)
    ensures PinnedQueries(ServeRead(s, id, p, now))
  {
    hide Get, GetAt, QueryBehind;
    var s' := ServeRead(s, id, p, now);
    forall i, n: nat | Usable(s'.store, i) && n < |s'.store.txs[i].queries|
      ensures QueryBehind(s'.store.history, s'.store.txs[i].queries[n]) <==> (i, n) in s'.staleQueries
    {
      assert Usable(s.store, i) && s'.store.txs[i].queries == s.store.txs[i].queries;
    }
  }

  // ----- Queries -----

  lemma QueryHere(start: Serial, s1: Session, s': Session, id: TxId, q: Query, p: Path)
    requires Steady(start, s1) && Usable(s1.store, id) && !s1.store.txs[id].snapshotPending && Answered(s1, s', id, q)
    requires s'.stale == s1.stale + StaleRows(s1, id, Rows(q, DbAt(s1.store.history, s1.store.txs[id].readVersion)))
    requires p in s'.store.txs[id].readSet
    ensures Behind(s'.store, id, p) <==> (id, p) in s'.stale
  {
    hide Rows, DbAt, Get, GetAt, GoodHistory, GoodLog;
    var t, seen := s1.store.txs[id], SeenBy(s1, id);
    var rows := Rows(q, DbAt(s1.store.history, t.readVersion));
    assert GoodTransaction(s1.store, seen, id) && GoodQueries(s1.store, AnswersTo(s1, id), id);
    AnsweredGood(start, s1, s', id, q);
    NotedIs(t.readSet, rows, p);
    ToldIs(seen, rows, p);
    if p in seen {
      assert Behind(s1.store, id, p) <==> (id, p) in s1.stale;
    }
  }

  function StaleRows(s: Session, id: TxId, rows: seq<Row>): set<(TxId, Path)> {
    var told := Told(SeenBy(s, id), rows);
    set p | p in RowPaths(rows) && p !in SeenBy(s, id) &&
      VersionOf(Get(s.store.history, p)) != VersionOf(ToldAs(told, p)) :: (id, p)
  }

  lemma QueryReads(start: Serial, s1: Session, s': Session, id: TxId, q: Query)
    requires Steady(start, s1) && Usable(s1.store, id) && !s1.store.txs[id].snapshotPending && Answered(s1, s', id, q)
    requires s'.stale == s1.stale + StaleRows(s1, id, Rows(q, DbAt(s1.store.history, s1.store.txs[id].readVersion)))
    ensures PinnedReads(s')
  {
    hide Rows, DbAt, Get, Good;
    var rows := Rows(q, DbAt(s1.store.history, s1.store.txs[id].readVersion));
    forall i, p | (i, p) in s'.stale ensures i in s'.seen && p in s'.seen[i] { ToldIs(SeenBy(s1, i), rows, p); }
    forall i, p | Usable(s'.store, i) && p in s'.store.txs[i].readSet
      ensures Behind(s'.store, i, p) <==> (i, p) in s'.stale
    {
      if i == id {
        QueryHere(start, s1, s', id, q, p);
      } else {
        assert Behind(s1.store, i, p) <==> (i, p) in s1.stale;
      }
    }
  }

  lemma QueryQueries(start: Serial, s1: Session, s': Session, id: TxId, q: Query)
    requires Steady(start, s1) && Usable(s1.store, id) && Answered(s1, s', id, q)
    requires var rows := Rows(q, DbAt(s1.store.history, s1.store.txs[id].readVersion));
             var n := |AnswersTo(s1, id)|;
             s'.staleQueries == if QueryBehind(s1.store.history, Ran(q, Versions(rows))) then
               s1.staleQueries + {(id, n)} else s1.staleQueries
    ensures PinnedQueries(s')
  {
    hide Rows, DbAt, QueryBehind, GoodHistory, GoodLog;
    assert GoodQueries(s1.store, AnswersTo(s1, id), id);
    forall i, n: nat | Usable(s'.store, i) && n < |s'.store.txs[i].queries|
      ensures QueryBehind(s'.store.history, s'.store.txs[i].queries[n]) <==> (i, n) in s'.staleQueries
    {
      if n < |s1.store.txs[i].queries| {
        assert s'.store.txs[i].queries[n] == s1.store.txs[i].queries[n];
      }
    }
  }

  lemma TouchPinned(start: Serial, s: Session, id: TxId, now: int)
    requires Steady(start, s)
    ensures Steady(start, s.(store := Touch(s.store, id, now)))
  {
    hide Get, QueryBehind, Good;
    TouchGood(start, s, id, now);
    var s' := s.(store := Touch(s.store, id, now));
    forall i, p | Usable(s'.store, i) && p in s'.store.txs[i].readSet
      ensures Behind(s'.store, i, p) <==> (i, p) in s'.stale
    {
      assert Behind(s.store, i, p) <==> (i, p) in s.stale;
    }
  }

  lemma QueryPinned(start: Serial, s: Session, id: TxId, q: Query, now: int)
    requires Steady(start, s)
    ensures Pinned(ServeQuery(s, id, q, now))
  {
    hide Good, Rows, DbAt, Current, Get, PinnedReads, PinnedQueries;
    TouchPinned(start, s, id, now);
    QueryShape(s, id, q, now);
    var s1 := s.(store := Touch(s.store, id, now));
    if Usable(s1.store, id) {
      QueryReads(start, s1, ServeQuery(s, id, q, now), id, q);
      QueryQueries(start, s1, ServeQuery(s, id, q, now), id, q);
    }
  }

  lemma BeginPinned(start: Serial, s: Session, readOnly: bool, version: nat, readTime: int, snapshot: Moment, now: int)
    requires Steady(start, s)
    ensures Pinned(s.(store := Begin(s.store, readOnly, version, readTime, snapshot, now).0))
  {
  }

  lemma CompactPinned(start: Serial, s: Session, floor: nat)
    requires Steady(start, s)
    ensures Pinned(s.(store := Compact(s.store, floor)))
  {
    if s.store.floor < floor <= s.store.version {
      CompactedCurrent(s.store.history, floor, s.store.version);
    }
  }

  lemma ServeSteady(start: Serial, s: Session, r: Request)
    requires Steady(start, s)
    ensures Steady(start, Serve(s, r))
  {
    ServeGood(start, s, r);
    match r
    case BeginTransaction(readOnly, snapshot, now) =>
      BeginPinned(start, s, readOnly, s.store.version, ReadTime(s.store, now), snapshot, now);
    case BeginAt(version, readTime, now) => BeginPinned(start, s, true, version, readTime, AtBegin, now);
    case GetDocument(id, path, now) => ReadPinned(start, s, id, path, now);
    case AskQuery(id, query, now) => QueryPinned(start, s, id, query, now);
    case CommitWrites(writes, own, now) => CommitPinned(start, s, writes, own, now);
    case RollbackTransaction(id) =>
      FinishKeeps(s.store, id, RolledBack);
      KeptPinned(s, Rollback(s.store, id));
    case RetryTransaction(previous, now) =>
      if Retry(s.store, previous, now).1.Ok? {
        ConsumeKeeps(s.store, previous);
        KeptPinned(s, Consume(s.store, previous));
        KeptGood(start, s, Consume(s.store, previous));
        BeginPinned(start, s.(store := Consume(s.store, previous)), false, s.store.version, ReadTime(s.store, now),
                    AtFirstUse, now);
      }
    case ExpireTransaction(id) =>
      FinishKeeps(s.store, id, Finished);
      KeptPinned(s, Expire(s.store, id));
    case CompactTo(floor) => CompactPinned(start, s, floor);
  }

  lemma {:induction false} RunSteady(s: Session, requests: seq<Request>)
    requires Fresh(s)
    ensures Steady(StartOf(s), ServeAll(s, requests))
  {
    if requests == [] {
      FreshGood(s);
    } else {
      RunSteady(s, requests[..|requests| - 1]);
      ServeSteady(StartOf(s), ServeAll(s, requests[..|requests| - 1]), requests[|requests| - 1]);
    }
  }

  /**
   The check refuses a transaction if and only if one of its reads, or of its queries, was behind
   the current documents already when it was made: nothing goes stale under a held lock.
   */
  lemma ConflictIffReadBehind(s: Session, requests: seq<Request>, id: TxId)
    requires Fresh(s)
    requires var s' := ServeAll(s, requests); Usable(s'.store, id) && !s'.store.txs[id].readOnly
    ensures var s' := ServeAll(s, requests);
            Conflicted(s'.store, id) <==> (exists p :: (id, p) in s'.stale) || (exists i :: (id, i) in s'.staleQueries)
  {
    hide ServeAll, Get, QueryBehind, GoodHistory, GoodLog;
    RunSteady(s, requests);
    var s' := ServeAll(s, requests);
    var t := s'.store.txs[id];
    assert GoodTransaction(s'.store, SeenBy(s', id), id) && GoodQueries(s'.store, AnswersTo(s', id), id);
    if ReadConflicted(s'.store, id) {
      var p :| p in t.readSet && VersionOf(Get(s'.store.history, p)) != t.readSet[p];
      assert Behind(s'.store, id, p);
    }
    if p :| (id, p) in s'.stale {
      assert p in t.readSet && Behind(s'.store, id, p);
    }
    if i :| (id, i) in s'.staleQueries {
      assert QueryBehind(s'.store.history, t.queries[i]);
    }
  }
}
