/** The life of a transaction: when it is refused and how, how it is retried, and what compaction drops. */
module Lifecycle {
  import opened Common
  import opened Store
  import opened Sessions
  import opened Serializability
  import opened Locking

  /** What a request on a transaction that is not usable answers. */
  lemma RefusedAs(s: Store, id: TxId, p: Path, now: int)
    requires !Usable(s, id)
    ensures Read(s, id, p, now) ==
            (s, Err(if id !in s.txs then InvalidTransaction
                    else if s.txs[id].state == RetryableAborted &&
                      s.txs[id].deadlockVictim then CrossTransactionContention
                    else NoLongerValid))
  {
  }

  /**
   The check of a committing transaction, each answer if and only if: unusable; read-only with
   writes, which ends it in production; a read or an answer that differs now, which aborts it.
   */
  lemma CheckIff(s: Store, id: TxId, writes: seq<Write>)
    ensures var (s', e) := CheckTransaction(s, id, writes);
            && (!Usable(s, id) ==> s' == s && e == Some(UnusableError(s, id)))
            && (e == Some(ReadOnlyTransaction) <==> Usable(s, id) && s.txs[id].readOnly && writes != [])
            && (e == Some(ReadOnlyTransaction) ==> (Usable(s', id) <==> !s.production))
            && (e == Some(ConcurrentModification) <==>
                  && Live(s, id)
                  && (|| (exists p :: p in s.txs[id].readSet && VersionOf(Get(s.history, p)) != s.txs[id].readSet[p])
                      || exists i :: && 0 <= i < |s.txs[id].queries|
                                     && Versions(Rows(s.txs[id].queries[i].query,
                                                      Current(s.history))) != s.txs[id].queries[i].rows))
            && (e == Some(ConcurrentModification) ==> !Usable(s', id) && s'.txs[id].state == RetryableAborted)
            && (e == None ==> s' == s && Usable(s, id))
            && e in {None, Some(ReadOnlyTransaction), Some(ConcurrentModification), Some(UnusableError(s, id))}
  {
    hide Rows, Current, Get;
  }

  /** The first use of a transaction: when it reads, and at which version. */
  lemma FirstUse(s: Store, id: TxId, now: int)
    requires Usable(s, id)
    ensures var t, t' := s.txs[id], Touch(s, id, now).txs[id];
            var time := if s.lastCommitTime.Some? && now < s.lastCommitTime.value then s.lastCommitTime.value else now;
            && (t.snapshotPending ==> t'.readVersion == s.version && t'.readTime == time)
            && (!t.snapshotPending ==> t'.readVersion == t.readVersion && t'.readTime == t.readTime)
            && (t.firstRead.Some? ==> t'.firstRead == t.firstRead)
            && (t.firstRead.None? && !t.readOnly ==> t'.firstRead == Some(time))
            && (t.firstRead.None? && t.readOnly ==> t'.firstRead == Some(t'.readTime))
  {
  }

  /** An empty commit of a transaction that has read answers the time of its first read and uses up none. */
  lemma EmptyCommitAnswersFirstRead(s: Store, id: TxId, now: int)
    requires Commit(s, [], Some(id), now).1.Done?
    ensures id in s.txs && Commit(s, [], Some(id), now).0.txs[id].state == Committed
    ensures s.txs[id].firstRead.Some? ==>
              && Commit(s, [], Some(id), now).1.time == s.txs[id].firstRead.value
              && Commit(s, [], Some(id), now).0.lastCommitTime == s.lastCommitTime
    ensures Commit(s, [], Some(id), now).0.version == s.version && Commit(s, [], Some(id), now).0.history == s.history
  {
    hide Conflicted;
    TransactionCheckKeeps(s, id, []);
    assert Written([]) == {};
    assert Holders(Wait(s, id, []), [], Some(id)) == {};
  }

  /**
   A retry is accepted if and only if the attempt it names is known, not read-only and not
   retried already. The named attempt is of no use any more and holds no lock, the new one has a
   new id, no snapshot yet and no lock, and the others are as they were. The same attempt cannot
   be retried again, unless it had run out of time.
   */
  lemma RetryIff(s: Store, previous: TxId, now: int, later: int)
    requires forall id :: id in s.txs ==> id <= s.nextTx
    ensures var (s', r) := Retry(s, previous, now);
            && (r.Ok? <==> previous in s.txs && !s.txs[previous].readOnly && s.txs[previous].state != Retried)
            && (r.Err? ==> s' == s)
            && (r.Ok? ==>
                  && r.value !in s.txs && Live(s', r.value) == (s.version >= s.floor) && s'.txs[r.value].snapshotPending
                  && s'.txs[r.value].startedAt == now && (forall writes :: !Locks(s', r.value, writes))
                  && !Usable(s', previous) && (forall writes, own :: previous !in Holders(s', writes, own))
                  && (forall id :: id in s.txs && id != previous ==> s'.txs[id] == s.txs[id])
                  && SameData(s, s')
                  && (Retry(s', previous, later).1.Ok? <==> s.txs[previous].state == Finished))
  {
    hide Locks;
    if previous in s.txs { ConsumeIs(s, previous); }
    hide Consume;
    var s' := Retry(s, previous, now).0;
    var id := s'.nextTx;
    forall writes
      ensures id in s'.txs && s'.txs[id].readSet == map[] && s'.txs[id].queries == [] ==> !Locks(s', id, writes)
    {
      NoLock(s', id, writes);
    }
  }

  lemma NoLock(s: Store, id: TxId, writes: seq<Write>)
    ensures id in s.txs && s.txs[id].readSet == map[] && s.txs[id].queries == [] ==> !Locks(s, id, writes)
  {
  }

  lemma ConsumeIs(s: Store, previous: TxId)
    requires previous in s.txs
    ensures var c := Consume(s, previous);
            && SameData(s, c) && c.nextTx == s.nextTx && c.txs.Keys == s.txs.Keys && c.production == s.production
            && c.lastCommitTime == s.lastCommitTime
            && c.txs[previous].state == (if s.txs[previous].state == Finished then Finished else Retried)
            && c.txs[previous].readOnly == s.txs[previous].readOnly
            && forall id :: id in s.txs && id != previous ==> c.txs[id] == s.txs[id]
  {
  }

  /** A rollback ends a usable transaction and frees its locks; anything else it leaves alone. */
  lemma RollbackIs(s: Store, id: TxId)
    ensures var s' := Rollback(s, id);
            && SameData(s, s')
            && (Usable(s, id) ==> s'.txs[id].state == RolledBack && forall writes :: !Locks(s', id, writes))
            && (!Usable(s, id) ==> s' == s)
            && (forall i :: i in s.txs && i != id ==> i in s'.txs && s'.txs[i] == s.txs[i])
  {
  }

  // ----- Compaction -----

  lemma EntriesDrop(es: seq<Entry>, floor: nat)
    requires Sorted(es)
    ensures var kept := CompactEntries(es, floor);
            && (forall i :: 1 <= i < |kept| ==> kept[i].version > floor)
            && (|kept| == 1 && kept[0].doc.None? ==> kept[0].version > floor)
            && (forall i :: 0 <= i < |es| && es[i].version > floor ==> es[i] in kept)
  {
    var n := CountUpTo(es, floor);
    forall i | 0 <= i < |es| ensures es[i].version <= floor <==> i < n { CountIsPrefix(es, floor, i); }
    hide CountUpTo;
    var cut := if n == 0 then 0 else n - 1;
    assert forall i :: cut <= i < |es| ==> es[i] == es[cut..][i - cut];
  }

  /**
   Compaction keeps of a path at most one entry at or before the floor, keeps every entry after
   it, and drops a path that is only a tombstone.
   */
  lemma CompactionDrops(h: History, floor: nat, version: nat, p: Path)
    requires GoodHistory(h, version) && p in h
    ensures var kept := Retained(CompactHistory(h, floor), p);
            && (forall i :: 1 <= i < |kept| ==> kept[i].version > floor)
            && (|kept| == 1 && kept[0].doc.None? ==> kept[0].version > floor)
            && (forall i :: 0 <= i < |h[p]| && h[p][i].version > floor ==> h[p][i] in kept)
  {
    hide CompactEntries;
    assert GoodEntries(h[p], version);
    EntriesDrop(h[p], floor);
    assert Retained(CompactHistory(h, floor), p) == CompactEntries(h[p], floor);
  }
}
