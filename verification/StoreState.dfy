/**
 The store as the code keeps it: one object whose maps are updated in place. Each method is
 proved to take the store's value from where it was to where the operation of the same name
 in module Store takes it, so what is proved of those operations holds of this object.
 */
module StoreState {
  import opened Common
  import opened Store
  import opened Sessions
  import Serializability

  class FirestoreState {
    const production: bool
    var history: History
    var version: nat
    var floor: nat
    var lastCommitTime: Option<int>
    var txs: map<TxId, Transaction>
    var nextTx: TxId

    function Value(): Store
      reads this
    {
      Store(production, history, version, floor, lastCommitTime, txs, nextTx)
    }

    /** Ids are issued in order, which is the order in which transactions are visited. */
    predicate Valid()
      reads this
    {
      forall id :: id in txs ==> id <= nextTx
    }

    constructor (production: bool)
      ensures Value() == Empty(production) && Valid()
    {
      this.production := production;
      history, version, floor, lastCommitTime, txs, nextTx := map[], 0, 0, None, map[], 0;
    }

    /** The newest entry at or before `v`, searched from the back. */
    method GetAtVersion(p: Path, v: nat) returns (d: Option<Document>)
      ensures d == GetAt(history, p, v)
    {
      if p !in history { return None; }
      var es := history[p];
      var n := |es|;
      assert es[..n] == es;
      while n > 0
        invariant 0 <= n <= |es|
        invariant AsOf(es[..n], v) == AsOf(es, v)
      {
        assert es[..n][..n - 1] == es[..n - 1];
        if es[n - 1].version <= v { return es[n - 1].doc; }
        n := n - 1;
      }
      d := None;
    }

    method BeginTransaction(readOnly: bool, readVersion: nat, readTime: int, snapshot: Moment, now: int)
      returns (id: TxId)
      requires Valid()
      modifies this
      ensures Valid() && (Value(), id) == Begin(old(Value()), readOnly, readVersion, readTime, snapshot, now)
      ensures id !in old(txs) && txs.Keys == old(txs.Keys) + {id} &&
              (forall i :: i in old(txs) ==> txs[i] == old(txs)[i])
      ensures (readVersion >= floor ==> Usable(Value(), id)) && forall writes :: !Locks(Value(), id, writes)
    {
      nextTx := nextTx + 1;
      id := nextTx;
      var t := Transaction(readOnly, readVersion, readTime, false, now, map[], [], [], false, None, Active);
      if snapshot == WithRead {
        t := t.(firstRead := Some(readTime));
      } else if snapshot == AtFirstUse {
        t := t.(snapshotPending := true);
      }
      txs := txs[id := t];
    }

    method FinishTransaction(id: TxId, state: TxState)
      requires Valid()
      modifies this
      ensures Valid() && Value() == Finish(old(Value()), id, state)
      ensures txs.Keys == old(txs.Keys) && (forall i :: i in txs && i != id ==> txs[i] == old(txs)[i])
      ensures state != Active ==> !Usable(Value(), id)
      ensures id in txs && old(txs)[id].state == Active ==>
              txs[id].waiting == [] && forall writes :: !Locks(Value(), id, writes)
    {
      if id in txs {
        var t := txs[id];
        if t.state == Active { t := t.(waiting := [], readSet := map[], queries := []); }
        txs := txs[id := t.(state := state)];
      }
    }

    method TouchTransaction(id: TxId, now: int)
      requires Valid()
      modifies this
      ensures Valid() && Value() == Touch(old(Value()), id, now)
      ensures txs.Keys == old(txs.Keys) && (forall i :: i in txs && i != id ==> txs[i] == old(txs)[i])
      ensures Usable(Value(), id) ==> !txs[id].snapshotPending && txs[id].firstRead.Some?
      ensures Usable(Value(), id) && !old(txs)[id].snapshotPending ==> txs[id].readVersion == old(txs)[id].readVersion
      ensures forall later :: Touch(Value(), id, later) == Value()
    {
      if id in txs && txs[id].state == Active && txs[id].readVersion >= floor {
        var t := txs[id];
        if t.snapshotPending {
          t := t.(snapshotPending := false, readVersion := version, readTime := ReadTime(Value(), now));
        }
        if t.firstRead.None? { t := t.(firstRead := Some(if t.readOnly then t.readTime else ReadTime(Value(), now))); }
        txs := txs[id := t];
        assert txs[id := t] == txs;
      }
    }

    method GetInTransaction(id: TxId, p: Path, now: int) returns (r: Result<Option<Document>, Error>)
      requires Valid()
      modifies this
      ensures Valid() && (Value(), r) == Read(old(Value()), id, p, now)
    {
      TouchTransaction(id, now);
      if !Usable(Value(), id) { return Err(UnusableError(Value(), id)); }
      var t := txs[id];
      var d := GetAtVersion(p, t.readVersion);
      if !t.readOnly { txs := txs[id := t.(readSet := t.readSet[p := VersionOf(d)])]; }
      r := Ok(d);
    }

    /** Runs a query on the snapshot and notes its rows one by one. */
    method RunQueryInTransaction(id: TxId, q: Query, now: int) returns (r: Result<seq<Row>, Error>)
      requires Valid()
      modifies this
      ensures Valid() && (Value(), r) == RunQuery(old(Value()), id, q, now)
    {
      hide Rows, DbAt;
      TouchTransaction(id, now);
      if !Usable(Value(), id) { return Err(UnusableError(Value(), id)); }
      var t := txs[id];
      var rows := Rows(q, DbAt(history, t.readVersion));
      if !t.readOnly {
        var readSet := t.readSet;
        for i := 0 to |rows|
          invariant readSet == Noted(t.readSet, rows[..i])
        {
          readSet := readSet[rows[i].0 := Some(rows[i].1.version)];
          assert rows[..i + 1][..i] == rows[..i];
        }
        assert rows[..|rows|] == rows;
        txs := txs[id := t.(readSet := readSet, queries := t.queries + [Ran(q, Versions(rows))])];
      }
      r := Ok(rows);
    }

    method ReadsConflicted(id: TxId) returns (b: bool)
      requires id in txs
      ensures b == ReadConflicted(Value(), id)
    {
      var readSet := txs[id].readSet;
      var left := readSet.Keys;
      while left != {}
        invariant left <= readSet.Keys
        invariant forall p :: p in readSet && p !in left ==> VersionOf(Get(history, p)) == readSet[p]
        decreases left
      {
        var p :| p in left;
        if VersionOf(Get(history, p)) != readSet[p] { return true; }
        left := left - {p};
      }
      b := false;
    }

    /** First the documents read, then the queries, each asked again on the current documents. */
    method TransactionConflicted(id: TxId) returns (b: bool)
      requires id in txs
      ensures b == Conflicted(Value(), id)
    {
      hide Rows, Current, ReadConflicted;
      b := ReadsConflicted(id);
      if b { return; }
      var queries := txs[id].queries;
      for i := 0 to |queries|
        invariant forall k :: 0 <= k < i ==> !QueryBehind(history, queries[k])
      {
        if Versions(Rows(queries[i].query, Current(history))) != queries[i].rows { return true; }
      }
    }

    method ValidateTransactionCommit(id: TxId, writes: seq<Write>) returns (e: Option<Error>)
      requires Valid()
      modifies this
      ensures Valid() && (Value(), e) == CheckTransaction(old(Value()), id, writes)
    {
      if !Usable(Value(), id) { return Some(UnusableError(Value(), id)); }
      if txs[id].readOnly && writes != [] {
        if production { FinishTransaction(id, CommitRefused); }
        return Some(ReadOnlyTransaction);
      }
      if !txs[id].readOnly {
        var conflicted := TransactionConflicted(id);
        if conflicted {
          FinishTransaction(id, RetryableAborted);
          return Some(ConcurrentModification);
        }
      }
      e := None;
    }

    /** The lock holders in the way, in id order, and those of them that wait for `own`. */
    method ContentionHolders(writes: seq<Write>, own: Option<TxId>) returns (holders: set<TxId>, cycle: set<TxId>)
      requires Valid()
      ensures holders == Holders(Value(), writes, own)
      ensures own.Some? && own.value in txs ==> cycle == Cycle(Value(), writes, own.value)
    {
      hide Locks;
      holders, cycle := {}, {};
      var s := Value();
      var id := 0;
      while id <= nextTx
        invariant id <= nextTx + 1
        invariant holders == set i | i in Holders(s, writes, own) && i < id
        invariant cycle == set i | i in holders && own.Some? && InCycle(s, i, own.value)
      {
        if Usable(s, id) && !txs[id].readOnly && own != Some(id) && Locks(s, id, writes) {
          assert id in Holders(s, writes, own);
          holders := holders + {id};
          if own.Some? && Locks(s, own.value, txs[id].waiting) {
            cycle := cycle + {id};
          }
        }
        id := id + 1;
      }
    }

    /** Aborts the deadlock victims one by one. */
    method AbortVictims(ids: set<TxId>)
      requires Valid() && ids <= txs.Keys
      modifies this
      ensures Valid() && Value() == Sacrifice(old(Value()), ids)
    {
      var s := Value();
      var left := ids;
      while left != {}
        invariant left <= ids <= txs.Keys
        invariant Valid() && Value() == Sacrifice(s, ids - left)
        decreases left
      {
        var id :| id in left;
        assert txs[id] == s.txs[id];
        txs := txs[id := Victim(txs[id])];
        left := left - {id};
        assert txs == Sacrifice(s, ids - left).txs;
      }
      assert ids - {} == ids;
    }

    method CheckLocks(writes: seq<Write>, own: Option<TxId>) returns (e: Option<Error>)
      requires Valid()
      modifies this
      ensures Valid() && (Value(), e) == CheckContention(old(Value()), writes, own)
    {
      if own.Some? && own.value in txs { txs := txs[own.value := txs[own.value].(waiting := [])]; }
      ghost var s := Value();
      var holders, cycle := ContentionHolders(writes, own);
      if holders == {} { return None; }
      if own.None? || own.value !in txs { return Some(TooMuchContention); }
      var id := own.value;
      assert cycle <= holders <= txs.Keys;
      if exists h :: h in cycle && Older(Value(), h, id) {
        AbortVictims({id});
        return Some(CrossTransactionContention);
      }
      AbortVictims(cycle);
      if cycle == holders { return None; }
      txs := txs[id := txs[id].(waiting := writes)];
      e := Some(TooMuchContention);
    }

    /** Stages the writes in order against a working copy; nothing is published. */
    method StageWrites(writes: seq<Write>, time: int) returns (r: Result<Stage, Error>)
      ensures r == StageAll(Current(history), writes, time, version + 1)
    {
      hide ApplyWrite, NoChange, Admits, Current, Lookup, Get, StageAll;
      Serializability.StageNone(Current(history), writes, time, version + 1);
      var stage: Stage := map[];
      var i := 0;
      while i < |writes|
        invariant 0 <= i <= |writes|
        invariant StageAll(Current(history), writes[..i], time, version + 1) == Ok(stage)
      {
        var w := writes[i];
        var p := w.op.path;
        var before := if p in stage then stage[p] else Staged(Get(history, p), false);
        Serializability.CurrentIsLatest(history, p);
        Serializability.StageNext(Current(history), writes, i, time, version + 1);
        var next := ApplyWrite(w, before.current, time, version + 1);
        if !Admits(w.precondition, before.current) || next.Err? {
          Serializability.StageErrorStays(Current(history), writes, i + 1, time, version + 1);
          return Err(if !Admits(w.precondition, before.current) then PreconditionFailed else next.error);
        }
        stage := stage[p := if NoChange(w, before.current, next.value) then before else Staged(next.value, true)];
        i := i + 1;
      }
      assert writes[..i] == writes;
      r := Ok(stage);
    }

    method CommitWrites(writes: seq<Write>, own: Option<TxId>, now: int) returns (o: Outcome)
      requires Valid()
      modifies this
      ensures Valid() && (Value(), o) == Commit(old(Value()), writes, own, now)
    {
      if own.Some? {
        var refused := ValidateTransactionCommit(own.value, writes);
        if refused.Some? { return Refused(refused.value); }
      }
      var held := CheckLocks(writes, own);
      if held.Some? { return Refused(held.value); }
      o := Publish(writes, own, now);
    }

    method Publish(writes: seq<Write>, own: Option<TxId>, now: int) returns (o: Outcome)
      requires Valid()
      modifies this
      ensures Valid() && (Value(), o) == Apply(old(Value()), writes, own, now)
    {
      var (time, consumed) := CommitTime(Value(), writes, own, now);
      var staged := StageWrites(writes, time);
      if staged.Err? {
        if staged.error == PreconditionFailed && own.Some? { FinishTransaction(own.value, CommitRefused); }
        return Refused(staged.error);
      }
      if consumed { lastCommitTime := Some(time); }
      if AnyChange(staged.value) {
        history := PublishHistory(history, staged.value, version + 1);
        version := version + 1;
      }
      o := Done(time, version);
      if own.Some? { FinishTransaction(own.value, Committed); }
    }

    /** Drops, path by path, what no version at or above the floor can reach. */
    method CompactTo(newFloor: nat)
      modifies this
      ensures Value() == Compact(old(Value()), newFloor)
      ensures old(Valid()) ==> Valid()
    {
      if newFloor <= floor || newFloor > version { return; }
      var kept: History := map[];
      var left := history.Keys;
      while left != {}
        invariant left <= history.Keys && unchanged(this)
        invariant kept == map p | p in CompactHistory(history, newFloor) && p !in left ::
                  CompactHistory(history, newFloor)[p]
        decreases left
      {
        var p :| p in left;
        var n := CountUpTo(history[p], newFloor);
        var es := history[p][if n == 0 then 0 else n - 1..];
        if !(|es| == 1 && es[0].doc.None? && es[0].version <= newFloor) && es != [] {
          kept := kept[p := es];
        }
        left := left - {p};
      }
      assert kept == CompactHistory(history, newFloor);
      history, floor := kept, newFloor;
    }

    method RollbackTransaction(id: TxId)
      requires Valid()
      modifies this
      ensures Valid() && Value() == Rollback(old(Value()), id)
    {
      if Usable(Value(), id) { FinishTransaction(id, RolledBack); }
    }

    /** A new attempt in the lineage of `previous`, which is used up. */
    method RetryTransaction(previous: TxId, now: int) returns (r: Result<TxId, Error>)
      requires Valid()
      modifies this
      ensures Valid() && (Value(), r) == Retry(old(Value()), previous, now)
    {
      hide Locks;
      if previous !in txs || txs[previous].readOnly { return Err(InvalidTransaction); }
      if txs[previous].state == Active { FinishTransaction(previous, RolledBack); }
      if txs[previous].state == Retried { return Err(InvalidTransaction); }
      if txs[previous].state != Finished { FinishTransaction(previous, Retried); }
      var id := BeginTransaction(false, version, ReadTime(Value(), now), AtFirstUse, now);
      r := Ok(id);
    }

    method ExpireTransaction(id: TxId)
      requires Valid()
      modifies this
      ensures Valid() && Value() == Expire(old(Value()), id)
    {
      if id in txs && txs[id].state == Active { FinishTransaction(id, Finished); }
    }

    method HandleRequest(r: Request)
      requires Valid()
      modifies this
      ensures Valid() && Value() == Step(old(Value()), r)
    {
      hide Commit, Read, RunQuery, Begin, Retry, Compact, Rollback, Expire, Locks, Touch;
      match r {
        case BeginTransaction(readOnly, snapshot, now) =>
          var _ := BeginTransaction(readOnly, version, ReadTime(Value(), now), snapshot, now);
        case BeginAt(v, readTime, now) =>
          if floor <= v <= version {
            var _ := BeginTransaction(true, v, readTime, AtBegin, now);
          }
        case GetDocument(id, path, now) => var _ := GetInTransaction(id, path, now);
        case AskQuery(id, query, now) => var _ := RunQueryInTransaction(id, query, now);
        case CommitWrites(writes, own, now) => var _ := CommitWrites(writes, own, now);
        case RollbackTransaction(id) => RollbackTransaction(id);
        case RetryTransaction(previous, now) => var _ := RetryTransaction(previous, now);
        case ExpireTransaction(id) => ExpireTransaction(id);
        case CompactTo(newFloor) => CompactTo(newFloor);
      }
    }

    /**
     Any sequence of requests, handled in place. The object's value is that of the run, whatever
     session it started in; so the current documents of an object that started without
     transactions are those of the serial execution of the accepted commits.
     */
    method HandleRequests(requests: seq<Request>, ghost s: Session)
      requires Valid() && s.store == Value()
      modifies this
      ensures Valid() && Value() == ServeAll(s, requests).store
      ensures Fresh(s) ==> Replay(StartOf(s), ServeAll(s, requests).log) == Some(Serial(Current(history), version))
    {
      hide Serve, Step, Fresh, Replay;
      for i := 0 to |requests|
        invariant Valid() && Value() == ServeAll(s, requests[..i]).store
      {
        ServeIsStep(ServeAll(s, requests[..i]), requests[i]);
        HandleRequest(requests[i]);
        assert requests[..i + 1][..i] == requests[..i];
      }
      assert requests[..|requests|] == requests;
      if Fresh(s) { Serializability.Serializable(s, requests); }
    }
  }
}
