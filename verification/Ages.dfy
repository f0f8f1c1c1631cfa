/**
 The age of transactions over whole runs. Ids are issued in the order in which transactions begin,
 so with a clock that does not go back a deadlock victim began after one that is spared.
 */
module Ages {
  import opened Common
  import opened Store
  import opened Sessions
  import opened Serializability
  import opened Locking
  import opened Deadlock

  function ClockOf(r: Request): Option<int> {
    match r
    case BeginTransaction(_, _, now) => Some(now)
    case BeginAt(_, _, now) => Some(now)
    case GetDocument(_, _, now) => Some(now)
    case AskQuery(_, _, now) => Some(now)
    case CommitWrites(_, _, now) => Some(now)
    case RetryTransaction(_, now) => Some(now)
    case _ => None
  }

  /** No request shows an earlier time than one before it. */
  predicate ClockRuns(requests: seq<Request>) {
    forall i, j :: 0 <= i < j < |requests| && ClockOf(requests[i]).Some? && ClockOf(requests[j]).Some? ==>
      ClockOf(requests[i]).value <= ClockOf(requests[j]).value
  }

  /** Transactions began in the order of their ids, none of them after `now`. */
  predicate InOrder(s: Store, now: Option<int>) {
    && (forall i :: i in s.txs ==> i <= s.nextTx && (now.Some? ==> s.txs[i].startedAt <= now.value))
    && (now.None? ==> s.txs == map[])
    && (forall i, j :: i in s.txs && j in s.txs && i < j ==> s.txs[i].startedAt <= s.txs[j].startedAt)
  }

  /** Transactions are kept, with the instant at which they began, and at most one is added. */
  ghost predicate Grows(a: Store, b: Store, now: Option<int>) {
    && a.nextTx <= b.nextTx <= a.nextTx + 1
    && (forall i :: i in a.txs ==> i in b.txs && b.txs[i].startedAt == a.txs[i].startedAt)
    && (forall i :: i in b.txs && i !in a.txs ==> i == b.nextTx == a.nextTx + 1 && now == Some(b.txs[i].startedAt))
    && (b.nextTx == a.nextTx + 1 ==> b.nextTx in b.txs)
  }

  /** A step that adds no transaction and moves no begin. */
  ghost predicate SameAges(a: Store, b: Store) {
    && a.nextTx == b.nextTx && a.txs.Keys == b.txs.Keys
    && forall i :: i in a.txs ==> b.txs[i].startedAt == a.txs[i].startedAt
  }

  lemma FinishAges(s: Store, id: TxId, state: TxState)
    ensures SameAges(s, Finish(s, id, state))
  {
  }

  lemma TouchAges(s: Store, id: TxId, now: int)
    ensures SameAges(s, Touch(s, id, now))
  {
  }

  lemma ReadAges(s: Store, id: TxId, p: Path, now: int)
    ensures SameAges(s, Read(s, id, p, now).0)
  {
    hide Touch, GetAt;
    TouchAges(s, id, now);
  }

  lemma QueryAges(s: Store, id: TxId, q: Query, now: int)
    ensures SameAges(s, RunQuery(s, id, q, now).0)
  {
    hide Touch, Rows, DbAt, Noted;
    TouchAges(s, id, now);
  }

  lemma SacrificeAges(s: Store, ids: set<TxId>)
    ensures SameAges(s, Sacrifice(s, ids))
  {
    assert Sacrifice(s, ids).txs.Keys == s.txs.Keys;
  }

  lemma WaitAges(s: Store, id: TxId, writes: seq<Write>)
    ensures SameAges(s, Wait(s, id, writes))
  {
  }

  lemma ResolveAges(s: Store, writes: seq<Write>, id: TxId)
    requires id in s.txs
    ensures SameAges(s, Resolve(s, writes, id).0)
  {
    hide Cycle, Holders, Sacrifice, Wait;
    var cycle := Cycle(s, writes, id);
    SacrificeAges(s, {id});
    SacrificeAges(s, cycle);
    WaitAges(Sacrifice(s, cycle), id, writes);
  }

  lemma ContentionAges(s: Store, writes: seq<Write>, own: Option<TxId>)
    ensures SameAges(s, CheckContention(s, writes, own).0)
  {
    hide Resolve, Holders, Wait;
    if own.Some? { WaitAges(s, own.value, []); }
    if own.Some? && own.value in Wait(s, own.value, []).txs { ResolveAges(Wait(s, own.value, []), writes, own.value); }
  }

  lemma ApplyAges(s: Store, writes: seq<Write>, own: Option<TxId>, now: int)
    ensures SameAges(s, Apply(s, writes, own, now).0)
  {
    hide StageAll, PublishHistory, Current, Finish;
    if own.Some? {
      FinishAges(s, own.value, CommitRefused);
      var (time, consumed) := CommitTime(s, writes, own, now);
      var staged := StageAll(Current(s.history), writes, time, s.version + 1);
      if staged.Ok? {
        FinishAges(Visible(s.(lastCommitTime := if consumed then Some(time) else s.lastCommitTime), staged.value),
                   own.value, Committed);
      }
    }
  }

  lemma CommitAges(s: Store, writes: seq<Write>, own: Option<TxId>, now: int)
    ensures SameAges(s, Commit(s, writes, own, now).0)
  {
    hide CheckContention, Apply, Conflicted, Finish, Usable;
    if own.Some? {
      FinishAges(s, own.value, CommitRefused);
      FinishAges(s, own.value, RetryableAborted);
    }
    ContentionAges(s, writes, own);
    ApplyAges(CheckContention(s, writes, own).0, writes, own, now);
  }

  lemma ConsumeAges(s: Store, previous: TxId)
    requires previous in s.txs
    ensures SameAges(s, Consume(s, previous))
  {
    hide Finish;
    FinishAges(s, previous, RolledBack);
    FinishAges(Finish(s, previous, RolledBack), previous, Retried);
    FinishAges(s, previous, Retried);
  }

  lemma RetryGrows(s: Store, previous: TxId, now: int)
    requires forall i :: i in s.txs ==> i <= s.nextTx
    ensures Grows(s, Retry(s, previous, now).0, Some(now))
  {
    hide Consume;
    if previous in s.txs { ConsumeAges(s, previous); }
  }

  lemma StepGrows(s: Store, r: Request)
    requires forall i :: i in s.txs ==> i <= s.nextTx
    ensures Grows(s, Step(s, r), ClockOf(r))
  {
    hide Commit, Read, RunQuery, Retry, Finish, CompactHistory;
    match r
    case GetDocument(id, p, now) => ReadAges(s, id, p, now);
    case AskQuery(id, q, now) => QueryAges(s, id, q, now);
    case CommitWrites(writes, own, now) => CommitAges(s, writes, own, now);
    case RollbackTransaction(id) => FinishAges(s, id, RolledBack);
    case RetryTransaction(previous, now) => RetryGrows(s, previous, now);
    case ExpireTransaction(id) => FinishAges(s, id, Finished);
    case _ =>
  }

  /** The latest time shown so far. */
  function LatestClock(requests: seq<Request>): Option<int> {
    if requests == [] then None
    else
      var last := ClockOf(requests[|requests| - 1]);
      if last.Some? then last else LatestClock(requests[..|requests| - 1])
  }

  lemma {:induction false} LatestIsSome(requests: seq<Request>) returns (i: nat)
    requires LatestClock(requests).Some?
    ensures i < |requests| && ClockOf(requests[i]) == LatestClock(requests)
  {
    i := |requests| - 1;
    if ClockOf(requests[i]).None? { i := LatestIsSome(requests[..i]); }
  }

  lemma GrowsInOrder(a: Store, b: Store, before: Option<int>, now: Option<int>)
    requires InOrder(a, before) && Grows(a, b, now) && (before.Some? && now.Some? ==> before.value <= now.value)
    ensures InOrder(b, if now.Some? then now else before)
  {
  }

  lemma {:induction false} RunInOrder(s: Session, requests: seq<Request>)
    requires Fresh(s) && ClockRuns(requests)
    ensures InOrder(ServeAll(s, requests).store, LatestClock(requests))
  {
    hide Serve, Step, Grows, InOrder;
    if requests == [] {
      assert InOrder(s.store, None) by { NoneInOrder(s); }
    } else {
      var n := |requests| - 1;
      RunInOrder(s, requests[..n]);
      var a := ServeAll(s, requests[..n]);
      ServeIsStep(a, requests[n]);
      KnownIds(a.store, LatestClock(requests[..n]));
      StepGrows(a.store, requests[n]);
      if LatestClock(requests[..n]).Some? { var i := LatestIsSome(requests[..n]); }
      GrowsInOrder(a.store, Step(a.store, requests[n]), LatestClock(requests[..n]), ClockOf(requests[n]));
    }
  }

  lemma NoneInOrder(s: Session)
    requires Fresh(s)
    ensures InOrder(s.store, None)
  {
  }

  lemma KnownIds(s: Store, now: Option<int>)
    requires InOrder(s, now)
    ensures forall i :: i in s.txs ==> i <= s.nextTx
  {
  }

  /** There was a moment of the run at which `a` had begun and `b` had not. */
  ghost predicate BeganBefore(s: Session, requests: seq<Request>, a: TxId, b: TxId) {
    exists k :: && 0 <= k <= |requests| && a in ServeAll(s, requests[..k]).store.txs
                && b !in ServeAll(s, requests[..k]).store.txs
  }

  /** The moment at which a transaction was the newest. */
  lemma {:induction false} NewestOnce(s: Session, requests: seq<Request>, id: TxId) returns (k: nat)
    requires Fresh(s) && id in ServeAll(s, requests).store.txs
    ensures k <= |requests|
    ensures var st := ServeAll(s, requests[..k]).store; id in st.txs && id == st.nextTx && forall i :: i in st.txs ==>
                                                                                             i <= id
  {
    hide Serve, Step, Fresh;
    var n := |requests| - 1;
    if requests == [] {
      assert false by { NothingYet(s); }
    } else {
      var a := ServeAll(s, requests[..n]);
      RunKnown(s, requests[..n]);
      RunKnown(s, requests);
      ServeIsStep(a, requests[n]);
      StepGrows(a.store, requests[n]);
      if id in a.store.txs {
        k := NewestOnce(s, requests[..n], id);
        assert requests[..n][..k] == requests[..k];
      } else {
        k := |requests|;
        assert requests[..k] == requests;
      }
    }
  }

  lemma NothingYet(s: Session)
    requires Fresh(s)
    ensures ServeAll(s, []).store.txs == map[]
  {
  }

  lemma RunKnown(s: Session, requests: seq<Request>)
    requires Fresh(s)
    ensures forall i :: i in ServeAll(s, requests).store.txs ==> i <= ServeAll(s, requests).store.nextTx
  {
    hide ServeAll;
    RunGood(s, requests);
  }

  /**
   On every run with a clock that does not go back, whoever a commit makes a deadlock victim
   began after a transaction that the commit spares.
   */
  lemma VictimBeganLater(s: Session, requests: seq<Request>, writes: seq<Write>, own: Option<TxId>, now: int,
                         victim: TxId)
    requires Fresh(s) && ClockRuns(requests)
    requires var st := ServeAll(s, requests).store; Sacrificed(st, Commit(st, writes, own, now).0, victim)
    ensures var st := ServeAll(s, requests).store;
            exists elder: TxId ::
              && Live(st, elder) && BeganBefore(s, requests, elder, victim)
              && st.txs[elder].startedAt <= st.txs[victim].startedAt
              && elder in Commit(st, writes, own, now).0.txs
              && Commit(st, writes, own, now).0.txs[elder].state != RetryableAborted
  {
    hide Commit, ServeAll, Fresh;
    var st := ServeAll(s, requests).store;
    RunInOrder(s, requests);
    VictimHasElder(st, writes, own, now, victim);
    var elder: TxId :| && Live(st, elder) && elder != victim
                       && (st.txs[elder].startedAt < st.txs[victim].startedAt ||
                           (st.txs[elder].startedAt == st.txs[victim].startedAt && elder < victim))
                       && elder in Commit(st, writes, own, now).0.txs
                       && Commit(st, writes, own, now).0.txs[elder].state != RetryableAborted;
    assert elder < victim;
    var k := NewestOnce(s, requests, elder);
    assert BeganBefore(s, requests, elder, victim);
  }
}
