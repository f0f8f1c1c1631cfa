/**
 Deadlocks. Of two transactions that wait for each other the younger is aborted, so the oldest
 never is.
 */
module Deadlock {
  import opened Common
  import opened Store
  import opened Sessions
  import opened Serializability
  import opened Locking

  /** `id` became a deadlock victim between the two states. */
  predicate Sacrificed(a: Store, b: Store, id: TxId) {
    id in a.txs && id in b.txs && b.txs[id].deadlockVictim && !a.txs[id].deadlockVictim
  }

  /** Who is aborted for a cycle is younger than the one it was aborted for, which survives. */
  lemma VictimIsYounger(s: Store, writes: seq<Write>, id: TxId, victim: TxId)
    requires Live(s, id) && Sacrificed(s, Resolve(s, writes, id).0, victim)
    ensures exists winner: TxId ::
              && Live(s, winner) && Live(Resolve(s, writes, id).0, winner)
              && (s.txs[winner].startedAt < s.txs[victim].startedAt ||
                  (s.txs[winner].startedAt == s.txs[victim].startedAt && winner < victim))
  {
    var cycle := Cycle(s, writes, id);
    if h :| h in cycle && Older(s, h, id) {
      assert victim == id;
      assert Live(Resolve(s, writes, id).0, h);
    } else {
      assert victim in cycle && victim != id && !Older(s, victim, id);
      assert Older(s, id, victim);
      assert Live(Resolve(s, writes, id).0, id);
    }
  }

  lemma FinishSparesVictims(s: Store, id: TxId, state: TxState, i: TxId)
    requires i in s.txs
    ensures i in Finish(s, id, state).txs && Finish(s, id, state).txs[i].deadlockVictim == s.txs[i].deadlockVictim
  {
  }

  lemma ApplySparesVictims(s: Store, writes: seq<Write>, own: Option<TxId>, now: int, id: TxId)
    requires id in s.txs
    ensures !Sacrificed(s, Apply(s, writes, own, now).0, id)
  {
  }

  lemma OnlyContentionSacrifices(s: Store, writes: seq<Write>, own: Option<TxId>, now: int, id: TxId)
    requires Sacrificed(s, Commit(s, writes, own, now).0, id)
    ensures own.Some? && Usable(s, own.value) && (s.txs[own.value].readOnly ==> writes == [])
    ensures Sacrificed(s, Admitted(s, writes, own), id)
  {
    var a := Admitted(s, writes, own);
    ContentionKeeps(s, writes, own);
    assert KeptAt(s, a, id);
    ApplySparesVictims(a, writes, own, now, id);
    if own.Some? {
      FinishSparesVictims(s, own.value, CommitRefused, id);
      FinishSparesVictims(s, own.value, RetryableAborted, id);
    }
  }

  /** Whoever a commit makes a victim, an older transaction was in its way and was spared. */
  lemma VictimHasElder(s: Store, writes: seq<Write>, own: Option<TxId>, now: int, id: TxId)
    requires Sacrificed(s, Commit(s, writes, own, now).0, id)
    ensures exists elder: TxId ::
              && Live(s, elder) && elder != id
              && (s.txs[elder].startedAt < s.txs[id].startedAt ||
                  (s.txs[elder].startedAt == s.txs[id].startedAt && elder < id))
              && elder in Commit(s, writes, own, now).0.txs
              && Commit(s, writes, own, now).0.txs[elder].state != RetryableAborted
  {
    hide Conflicted, Locks, Apply, Cycle;
    OnlyContentionSacrifices(s, writes, own, now, id);
    TransactionCheckKeeps(s, own.value, writes);
    var s1 := Wait(s, own.value, []);
    WaitKeeps(s, own.value, []);
    NoWriteNoHolder(s1, own);
    VictimIsYounger(s1, writes, own.value, id);
    var elder: TxId :| && Live(s1, elder) && Live(Resolve(s1, writes, own.value).0, elder)
                       && (s1.txs[elder].startedAt < s1.txs[id].startedAt ||
                           (s1.txs[elder].startedAt == s1.txs[id].startedAt && elder < id));
    assert KeptAt(s, s1, elder);
    var a := Admitted(s, writes, own);
    ApplyAborts(a, writes, own, now, elder);
  }

  /** The oldest transaction is never the victim, so of those that contend one always goes on. */
  lemma OldestIsNeverVictim(s: Store, writes: seq<Write>, own: Option<TxId>, now: int, id: TxId)
    requires Live(s, id)
    requires forall j :: Live(s, j) && j != id ==>
               s.txs[id].startedAt < s.txs[j].startedAt || (s.txs[id].startedAt == s.txs[j].startedAt && id < j)
    ensures !Sacrificed(s, Commit(s, writes, own, now).0, id)
  {
    hide Commit;
    if Sacrificed(s, Commit(s, writes, own, now).0, id) { VictimHasElder(s, writes, own, now, id); }
  }

  // ----- Which deadlocks are seen -----

  /** `a` waits for a lock that `b` holds. */
  predicate WaitsFor(s: Store, a: TxId, b: TxId) {
    a != b && Live(s, a) && Live(s, b) && Locks(s, b, s.txs[a].waiting)
  }

  /** The commit made the transaction fail in a way that asks for a retry. */
  predicate Aborted(a: Store, b: Store, id: TxId) {
    Live(a, id) && id in b.txs && b.txs[id].state == RetryableAborted
  }

  /** Whom the deadlock rule aborts when `id` commits: itself, or all that wait for it. */
  function Victims(s: Store, writes: seq<Write>, id: TxId): set<TxId>
    requires id in s.txs
  {
    var cycle := Cycle(s, writes, id);
    if exists h :: h in cycle && Older(s, h, id) then {id} else cycle
  }

  lemma WaitSparesLocks(s: Store, id: TxId, writes: seq<Write>, i: TxId, others: seq<Write>)
    ensures Locks(Wait(s, id, writes), i, others) == Locks(s, i, others)
    ensures Usable(Wait(s, id, writes), i) == Usable(s, i)
  {
    hide RangeLocks;
  }

  /** Forgetting its own wait changes neither the holders nor the cycle. */
  lemma SameCycle(s: Store, writes: seq<Write>, id: TxId)
    requires id in s.txs
    ensures var s1 := Wait(s, id, []);
            && Holders(s1, writes, Some(id)) == Holders(s, writes, Some(id))
            && Cycle(s1, writes, id) == Cycle(s, writes, id) && Victims(s1, writes, id) == Victims(s, writes, id)
  {
    hide Locks;
    var s1 := Wait(s, id, []);
    forall i ensures i in Holders(s1, writes, Some(id)) <==> i in Holders(s, writes, Some(id)) {
      WaitSparesLocks(s, id, [], i, writes);
    }
    assert Holders(s1, writes, Some(id)) == Holders(s, writes, Some(id));
    forall h | h in Holders(s, writes, Some(id)) ensures InCycle(s1, h, id) == InCycle(s, h, id) {
      WaitSparesLocks(s, id, [], id, s.txs[h].waiting);
    }
    assert Cycle(s1, writes, id) == Cycle(s, writes, id);
  }

  lemma SacrificeAborts(s: Store, ids: set<TxId>, v: TxId)
    requires v in s.txs && s.txs[v].state == Active
    ensures v in Sacrifice(s, ids).txs
    ensures Sacrifice(s, ids).txs[v].state == (if v in ids then RetryableAborted else Active)
    ensures v in ids ==> Sacrifice(s, ids).txs[v].deadlockVictim
    ensures v !in ids ==> Sacrifice(s, ids).txs[v] == s.txs[v]
  {
  }

  lemma ResolveAborts(s: Store, writes: seq<Write>, id: TxId, v: TxId)
    requires Live(s, id) && Live(s, v)
    ensures var s' := Resolve(s, writes, id).0;
            && v in s'.txs && s'.txs[v].state == (if v in Victims(s, writes, id) then RetryableAborted else Active)
            && (v in Victims(s, writes, id) ==> s'.txs[v].deadlockVictim)
  {
    hide Locks, Holders, Older, Sacrifice;
    var cycle := Cycle(s, writes, id);
    SacrificeAborts(s, {id}, v);
    SacrificeAborts(s, cycle, v);
  }

  lemma ApplyAborts(s: Store, writes: seq<Write>, own: Option<TxId>, now: int, v: TxId)
    requires v in s.txs && (own == Some(v) ==> s.txs[v].state == Active)
    ensures v in Apply(s, writes, own, now).0.txs
    ensures Apply(s, writes, own, now).0.txs[v].state == RetryableAborted <==> s.txs[v].state == RetryableAborted
    ensures s.txs[v].deadlockVictim == Apply(s, writes, own, now).0.txs[v].deadlockVictim
  {
    hide StageAll, PublishHistory, Current;
  }

  /** A commit past the check of its own reads aborts exactly the victims of its deadlocks. */
  lemma VictimsAreAborted(s: Store, writes: seq<Write>, id: TxId, now: int, v: TxId)
    requires Live(s, id) && CheckTransaction(s, id, writes).1.None?
    ensures var s' := Commit(s, writes, Some(id), now).0;
            && (Aborted(s, s', v) <==>
                  if exists h :: && h in Cycle(s, writes, id)
                                 && (s.txs[h].startedAt < s.txs[id].startedAt ||
                                     (s.txs[h].startedAt == s.txs[id].startedAt && h < id))
                  then v == id
                  else v in Cycle(s, writes, id))
            && (Aborted(s, s', v) ==> s'.txs[v].deadlockVictim)
  {
    hide Commit;
    VictimsAbort(s, writes, id, now, v);
    assert forall h :: h in Cycle(s, writes, id) ==>
      (Older(s, h, id) <==> s.txs[h].startedAt < s.txs[id].startedAt ||
                            (s.txs[h].startedAt == s.txs[id].startedAt && h < id));
  }

  lemma VictimsAbort(s: Store, writes: seq<Write>, id: TxId, now: int, v: TxId)
    requires Live(s, id) && CheckTransaction(s, id, writes).1.None?
    ensures var s' := Commit(s, writes, Some(id), now).0;
            && (Aborted(s, s', v) <==> v in Victims(s, writes, id))
            && (Aborted(s, s', v) ==> s'.txs[v].deadlockVictim)
  {
    hide Conflicted, Locks, Apply;
    SameCycle(s, writes, id);
    var s1 := Wait(s, id, []);
    WaitSparesLocks(s, id, [], v, writes);
    if Live(s, v) {
      var a := Admitted(s, writes, Some(id));
      if Holders(s1, writes, Some(id)) != {} { ResolveAborts(s1, writes, id, v); }
      assert v in a.txs && (a.txs[v].state == RetryableAborted <==> v in Victims(s, writes, id));
      if CheckContention(s, writes, Some(id)).1.None? { ApplyAborts(a, writes, Some(id), now, v); }
    }
  }

  /** A deadlock is resolved by a commit if and only if the commit closes a cycle of two. */
  lemma VictimIffCycleOfTwo(s: Store, writes: seq<Write>, id: TxId, now: int)
    requires Live(s, id) && CheckTransaction(s, id, writes).1.None?
    ensures (exists v :: Aborted(s, Commit(s, writes, Some(id), now).0, v)) <==> Cycle(s, writes, id) != {}
  {
    hide Commit, CheckTransaction, Holders;
    if v :| Aborted(s, Commit(s, writes, Some(id), now).0, v) { VictimsAbort(s, writes, id, now, v); }
    if Cycle(s, writes, id) != {} {
      var v :| v in Victims(s, writes, id);
      VictimsAbort(s, writes, id, now, v);
    }
  }

  /** Two transactions that wait for each other are not both left by the next attempt of either. */
  lemma PairIsBroken(s: Store, a: TxId, b: TxId, now: int)
    requires WaitsFor(s, a, b) && WaitsFor(s, b, a)
    ensures var s' := Commit(s, s.txs[a].waiting, Some(a), now).0; !(Live(s', a) && Live(s', b))
  {
    hide Conflicted, Locks, Apply;
    var writes := s.txs[a].waiting;
    if CheckTransaction(s, a, writes).1.None? {
      assert b in Cycle(s, writes, a);
      if exists h :: h in Cycle(s, writes, a) && Older(s, h, a) {
        VictimsAbort(s, writes, a, now, a);
      } else {
        VictimsAbort(s, writes, a, now, b);
      }
    }
  }

  // ----- Cycles that stay -----

  /** Each waits for the next. */
  ghost predicate Chain(s: Store, c: seq<TxId>) {
    forall k :: 0 <= k < |c| - 1 ==> WaitsFor(s, c[k], c[k + 1])
  }

  ghost predicate Leads(s: Store, from: TxId, to: TxId, c: seq<TxId>) {
    |c| >= 2 && c[0] == from && c[|c| - 1] == to && Chain(s, c)
  }

  ghost predicate Deadlocked(s: Store, id: TxId) {
    exists c :: Leads(s, id, id, c)
  }

  ghost predicate AllLive(s: Store, c: seq<TxId>) {
    forall k :: 0 <= k < |c| ==> Live(s, c[k])
  }

  /** What a commit that is left waiting does: it waits, some that waited for it are aborted. */
  ghost predicate LeftWaiting(s: Store, s': Store, writes: seq<Write>, id: TxId) {
    && Live(s, id) && Live(s', id) && s'.txs[id].waiting == writes && s'.history == s.history
    && (forall v :: Live(s', v) ==> Live(s, v) && SameSnapshot(s.txs[v], s'.txs[v]))
    && (forall v :: Live(s', v) && v != id ==> s'.txs[v].waiting == s.txs[v].waiting)
  }

  lemma SacrificedWaits(s: Store, ids: set<TxId>, id: TxId, writes: seq<Write>)
    requires Live(s, id) && id !in ids
    ensures LeftWaiting(s, Wait(Sacrifice(s, ids), id, writes), writes, id)
  {
  }

  lemma RefusedWaits(s: Store, writes: seq<Write>, id: TxId, now: int)
    requires Commit(s, writes, Some(id), now).1 == Refused(TooMuchContention)
    ensures LeftWaiting(s, Commit(s, writes, Some(id), now).0, writes, id)
  {
    hide Locks, StageAll, Conflicted, Holders, Older, Apply, LeftWaiting;
    TransactionCheckKeeps(s, id, writes);
    var s1 := Wait(s, id, []);
    ApplyIsNoContention(Admitted(s, writes, Some(id)), writes, Some(id), now);
    NoWriteNoHolder(s1, Some(id));
    WaitedIsLive(s, [], id);
    NotOwnHolder(s1, writes, id);
    SacrificedWaits(s1, Cycle(s1, writes, id), id, writes);
    ForgetWait(s, Commit(s, writes, Some(id), now).0, writes, id);
  }

  lemma NotOwnHolder(s: Store, writes: seq<Write>, id: TxId)
    ensures id !in Holders(s, writes, Some(id))
  {
  }

  lemma NoWriteNoHolder(s: Store, own: Option<TxId>)
    ensures Holders(s, [], own) == {}
  {
    assert Written([]) == {};
  }

  lemma ApplyIsNoContention(s: Store, writes: seq<Write>, own: Option<TxId>, now: int)
    ensures Apply(s, writes, own, now).1 != Refused(TooMuchContention)
  {
    StageError(Current(s.history), writes, CommitTime(s, writes, own, now).0, s.version + 1);
  }

  lemma {:induction false} StageError(db: Db, writes: seq<Write>, time: int, version: nat)
    ensures StageAll(db, writes, time, version) != Err(TooMuchContention)
  {
    if writes != [] {
      var n := |writes| - 1;
      StageError(db, writes[..n], time, version);
      if StageAll(db, writes[..n], time, version).Ok? {
        WriteError(writes[n]);
      }
    }
  }

  lemma {:induction false} TransformError(fields: Fields, ts: seq<Transform>, time: int)
    ensures ApplyTransforms(fields, ts, time) != Err(TooMuchContention)
    decreases |ts|
  {
    if ts != [] {
      var v := Transformed(fields, ts[0], time);
      if v.Ok? { TransformError(fields[ts[0].field := v.value], ts[1..], time); }
    }
  }

  lemma WriteError(w: Write)
    ensures forall c, time, version :: ApplyWrite(w, c, time, version) != Err(TooMuchContention)
  {
    forall c, time, version ensures ApplyWrite(w, c, time, version) != Err(TooMuchContention) {
      if w.op.Set? {
        var base := if c.Some? then c.value.fields else map[];
        var next := if w.op.mask.None? then w.op.fields else Masked(base, w.op.fields, w.op.mask.value);
        TransformError(next, w.transforms, time);
      }
    }
  }

  lemma WaitedIsLive(s: Store, writes: seq<Write>, id: TxId)
    requires Usable(s, id)
    ensures Live(Wait(s, id, writes), id) == Live(s, id)
  {
  }

  lemma ForgetWait(s: Store, s': Store, writes: seq<Write>, id: TxId)
    requires Live(s, id) && LeftWaiting(Wait(s, id, []), s', writes, id)
    ensures LeftWaiting(s, s', writes, id)
  {
  }

  /** Between survivors, other than for `id` itself, the waits are what they were. */
  lemma SameWaits(s: Store, s': Store, writes: seq<Write>, id: TxId, a: TxId, b: TxId)
    requires LeftWaiting(s, s', writes, id) && Live(s', a) && Live(s', b)
    ensures a != id ==> (WaitsFor(s', a, b) <==> WaitsFor(s, a, b))
    ensures WaitsFor(s', id, b) <==> b in Holders(s, writes, Some(id))
  {
    hide Locks;
    SameLocks(s, s', b, s'.txs[a].waiting);
    SameLocks(s, s', b, writes);
  }

  /** Where a chain that starts elsewhere first meets `id`. */
  lemma {:induction false} FirstMeeting(c: seq<TxId>, id: TxId) returns (k: nat)
    requires id in c
    ensures k < |c| && c[k] == id && id !in c[..k]
  {
    if c[0] == id {
      k := 0;
    } else {
      k := FirstMeeting(c[1..], id);
      k := k + 1;
      assert c[..k] == [c[0]] + c[1..][..k - 1];
    }
  }

  lemma SameChain(s: Store, s': Store, writes: seq<Write>, id: TxId, c: seq<TxId>)
    requires LeftWaiting(s, s', writes, id) && AllLive(s', c) && c != [] && id !in c[..|c| - 1]
    ensures Chain(s', c) <==> Chain(s, c)
  {
    hide LeftWaiting, WaitsFor;
    forall k | 0 <= k < |c| - 1 ensures WaitsFor(s', c[k], c[k + 1]) <==> WaitsFor(s, c[k], c[k + 1]) {
      assert c[k] == c[..|c| - 1][k];
      SameWaits(s, s', writes, id, c[k], c[k + 1]);
    }
  }

  /** A chain back to `id` that starts at a surviving holder closes a cycle. */
  lemma ClosesCycle(s: Store, s': Store, writes: seq<Write>, id: TxId, h: TxId, c: seq<TxId>)
    requires LeftWaiting(s, s', writes, id) && h in Holders(s, writes, Some(id))
    requires Leads(s, h, id, c) && AllLive(s', c)
    ensures Deadlocked(s', id)
  {
    hide LeftWaiting, WaitsFor, Locks;
    var k := FirstMeeting(c, id);
    NotOwnHolder(s, writes, id);
    var d := c[..k + 1];
    assert d[..|d| - 1] == c[..k];
    assert Chain(s, d);
    SameChain(s, s', writes, id, d);
    SameWaits(s, s', writes, id, id, h);
    assert Leads(s', id, id, [id] + d);
  }

  /** A cycle through `id` goes on from a surviving holder by waits that were there before. */
  lemma CycleWasThere(s: Store, s': Store, writes: seq<Write>, id: TxId, c: seq<TxId>) returns (d: seq<TxId>)
    requires LeftWaiting(s, s', writes, id) && Leads(s', id, id, c)
    ensures |d| >= 2 && d[0] in Holders(s, writes, Some(id)) && Leads(s, d[0], id, d) && AllLive(s', d)
  {
    hide LeftWaiting, Locks;
    var k := FirstMeeting(c[1..], id);
    d := c[1..][..k + 1];
    assert WaitsFor(s', c[0], c[1]) && d[0] == c[1] != id;
    assert d[..|d| - 1] == c[1..][..k];
    assert forall j :: 0 <= j < |d| ==> d[j] == c[j + 1];
    forall j | 0 <= j < |d| ensures Live(s', d[j]) { assert WaitsFor(s', c[j], c[j + 1]); }
    assert Chain(s', d);
    SameChain(s, s', writes, id, d);
    SameWaits(s, s', writes, id, id, d[0]);
  }

  /**
   A commit that is left waiting is in a deadlock afterwards if and only if, before it, a chain
   of waits through survivors led from a surviving holder of the locks it wants back to it.
   */
  lemma DeadlockStaysIff(s: Store, writes: seq<Write>, id: TxId, now: int)
    requires Commit(s, writes, Some(id), now).1 == Refused(TooMuchContention)
    ensures var s' := Commit(s, writes, Some(id), now).0;
            Deadlocked(s', id) <==>
              exists h, c :: h in Holders(s, writes, Some(id)) && Leads(s, h, id, c) && AllLive(s', c)
  {
    hide Commit, Holders, LeftWaiting, Leads, AllLive;
    var s' := Commit(s, writes, Some(id), now).0;
    RefusedWaits(s, writes, id, now);
    if Deadlocked(s', id) {
      var c :| Leads(s', id, id, c);
      var d := CycleWasThere(s, s', writes, id, c);
    }
    if h, c :| h in Holders(s, writes, Some(id)) && Leads(s, h, id, c) && AllLive(s', c) {
      ClosesCycle(s, s', writes, id, h, c);
    }
  }

  /** In particular a chain of one wait, the cycle of two, is never left. */
  lemma WaitingIsInNoPair(s: Store, writes: seq<Write>, id: TxId, now: int, other: TxId)
    requires Commit(s, writes, Some(id), now).1 == Refused(TooMuchContention)
    ensures var s' := Commit(s, writes, Some(id), now).0;
            WaitsFor(s', id, other) ==> !WaitsFor(s', other, id)
  {
    hide Locks, Apply, Conflicted;
    RefusedWaits(s, writes, id, now);
    ApplyIsNoContention(Admitted(s, writes, Some(id)), writes, Some(id), now);
    var s' := Commit(s, writes, Some(id), now).0;
    if WaitsFor(s', id, other) && WaitsFor(s', other, id) {
      SameWaits(s, s', writes, id, id, other);
      SameWaits(s, s', writes, id, other, id);
      SameCycle(s, writes, id);
      assert other in Cycle(s, writes, id);
      var s1 := Wait(s, id, []);
      SacrificeAborts(s1, Cycle(s1, writes, id), other);
    }
  }
}
