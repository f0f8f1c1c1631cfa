/**
 Three transactions, each waiting for the next one's lock: a deadlock that an ordinary run
 reaches and that the rule for cycles of two never resolves.
 */
module WaitRing {
  import opened Common
  import opened Store
  import opened Sessions
  import opened Serializability
  import opened Locking
  import opened Deadlock

  function Create(p: Path): seq<Write> {
    [Write(Set(p, map[], None), Always, [])]
  }

  /** Begun at `n`, read `own` three ticks later, and waiting to create `wanted`. */
  function Waiter(n: nat, own: Path, wanted: Path): Transaction {
    Transaction(false, 0, n + 3, false, n, map[own := None], [], Create(wanted), false, Some(n + 3), Active)
  }

  function Reader(n: nat, own: Path): Transaction {
    Waiter(n, own, own).(waiting := [])
  }

  function Beginner(n: nat): Transaction {
    Transaction(false, 0, n, true, n, map[], [], [], false, None, Active)
  }

  function Trio(a: Transaction, b: Transaction, c: Transaction): Store {
    Store(true, map[], 0, 0, None, map[1 := a, 2 := b, 3 := c], 3)
  }

  function Ring(): Store {
    Trio(Waiter(1, "a", "b"), Waiter(2, "b", "c"), Waiter(3, "c", "a"))
  }

  const REQUESTS: seq<Request> :=
    [BeginTransaction(false, AtFirstUse, 1), BeginTransaction(false, AtFirstUse, 2),
     BeginTransaction(false, AtFirstUse, 3),
     GetDocument(1, "a", 4), GetDocument(2, "b", 5), GetDocument(3, "c", 6),
     CommitWrites(Create("b"), Some(1), 7), CommitWrites(Create("c"), Some(2), 8),
     CommitWrites(Create("a"), Some(3), 9)]

  function Start(): Session {
    Session(Empty(true), map[], map[], {}, {}, [])
  }

  // ----- The steps -----

  lemma Begins()
    ensures Step(Step(Step(Empty(true), REQUESTS[0]), REQUESTS[1]), REQUESTS[2]) ==
            Trio(Beginner(1), Beginner(2), Beginner(3))
  {
    var s1 := Step(Empty(true), REQUESTS[0]);
    assert s1 == Store(true, map[], 0, 0, None, map[1 := Beginner(1)], 1);
    var s2 := Step(s1, REQUESTS[1]);
    assert s2 == Store(true, map[], 0, 0, None, map[1 := Beginner(1), 2 := Beginner(2)], 2);
  }

  lemma ReadStep(s: Store, id: TxId, p: Path)
    requires s.history == map[] && s.version == 0 && s.floor == 0 && s.lastCommitTime == None
    requires id in s.txs && s.txs[id] == Beginner(id)
    ensures Step(s, GetDocument(id, p, id + 3)) == s.(txs := s.txs[id := Reader(id, p)])
  {
  }

  lemma Reads()
    ensures Step(Step(Step(Trio(Beginner(1), Beginner(2), Beginner(3)), REQUESTS[3]), REQUESTS[4]), REQUESTS[5]) ==
            Trio(Reader(1, "a"), Reader(2, "b"), Reader(3, "c"))
  {
    hide Step;
    var s0 := Trio(Beginner(1), Beginner(2), Beginner(3));
    var s1 := Trio(Reader(1, "a"), Beginner(2), Beginner(3));
    var s2 := Trio(Reader(1, "a"), Reader(2, "b"), Beginner(3));
    ReadStep(s0, 1, "a");
    assert s0.(txs := s0.txs[1 := Reader(1, "a")]) == s1;
    ReadStep(s1, 2, "b");
    assert s1.(txs := s1.txs[2 := Reader(2, "b")]) == s2;
    ReadStep(s2, 3, "c");
    assert s2.(txs := s2.txs[3 := Reader(3, "c")]) == Trio(Reader(1, "a"), Reader(2, "b"), Reader(3, "c"));
  }

  /** A transaction of the ring that has read `own` only. */
  predicate HasRead(t: Transaction, own: Path) {
    !t.readOnly && t.state == Active && t.readVersion == 0 && t.readSet == map[own := None] && t.queries == []
  }

  /** The store around a commit of `id`, which reads `own` and creates what `next` has read. */
  ghost predicate Around(s: Store, id: TxId, next: TxId, last: TxId, own: Path, wanted: Path, third: Path) {
    && s.history == map[] && s.floor == 0 && s.txs.Keys == {id, next, last}
    && id != next && next != last && id != last && own != wanted && wanted != third && own != third
    && HasRead(s.txs[id], own) && HasRead(s.txs[next], wanted) && HasRead(s.txs[last], third)
    && s.txs[next].waiting in {[], Create(third)}
  }

  lemma OneLock(s: Store, id: TxId, own: Path, p: Path)
    requires id in s.txs && HasRead(s.txs[id], own)
    ensures Locks(s, id, Create(p)) <==> own == p
    ensures !Locks(s, id, [])
  {
    hide Covers;
    var w := Write(Set(p, map[], None), Always, []);
    assert Create(p) == [w];
    assert forall v :: v in Create(p) <==> v == w;
    assert Written(Create(p)) == {p} by { assert w in Create(p) && w.op.path == p; }
    assert Written([]) == {};
    assert s.txs[id].readSet.Keys == {own};
    assert own != p ==> s.txs[id].readSet.Keys * {p} == {};
    assert own == p ==> p in s.txs[id].readSet.Keys * {p};
  }

  lemma OneHolder(s: Store, id: TxId, next: TxId, last: TxId, own: Path, wanted: Path, third: Path)
    requires Around(s, id, next, last, own, wanted, third)
    ensures Holders(s, Create(wanted), Some(id)) == {next} && Cycle(s, Create(wanted), id) == {}
  {
    hide Locks, Create;
    OneLock(s, next, wanted, wanted);
    OneLock(s, last, third, wanted);
    OneLock(s, id, own, third);
    forall i ensures i in Holders(s, Create(wanted), Some(id)) <==> i == next {
      assert i in s.txs ==> i == id || i == next || i == last;
    }
    assert Holders(s, Create(wanted), Some(id)) == {next};
    assert !InCycle(s, next, id);
    assert forall i :: i !in Cycle(s, Create(wanted), id);
  }

  /** The commit is refused and its writes are what the transaction waits for. */
  lemma CommitWaits(s: Store, id: TxId, next: TxId, last: TxId, own: Path, wanted: Path, third: Path, now: int)
    requires Around(s, id, next, last, own, wanted, third)
    ensures Commit(s, Create(wanted), Some(id), now) ==
            (s.(txs := s.txs[id := s.txs[id].(waiting := Create(wanted))]), Refused(TooMuchContention))
  {
    hide Apply, Holders, Cycle, Create, Locks;
    var s1 := Wait(s, id, []);
    assert CheckTransaction(s, id, Create(wanted)) == (s, None);
    OneHolder(s1, id, next, last, own, wanted, third);
    assert Sacrifice(s1, {}) == s1;
    assert Wait(s1, id, Create(wanted)).txs == s.txs[id := s.txs[id].(waiting := Create(wanted))];
  }

  lemma Commits()
    ensures Step(Step(Step(Trio(Reader(1, "a"), Reader(2, "b"), Reader(3, "c")), REQUESTS[6]), REQUESTS[7]),
                 REQUESTS[8]) == Ring()
  {
    hide Commit, Create;
    var s0 := Trio(Reader(1, "a"), Reader(2, "b"), Reader(3, "c"));
    var s1 := Trio(Waiter(1, "a", "b"), Reader(2, "b"), Reader(3, "c"));
    var s2 := Trio(Waiter(1, "a", "b"), Waiter(2, "b", "c"), Reader(3, "c"));
    CommitWaits(s0, 1, 2, 3, "a", "b", "c", 7);
    assert s0.(txs := s0.txs[1 := s0.txs[1].(waiting := Create("b"))]) == s1;
    CommitWaits(s1, 2, 3, 1, "b", "c", "a", 8);
    assert s1.(txs := s1.txs[2 := s1.txs[2].(waiting := Create("c"))]) == s2;
    CommitWaits(s2, 3, 1, 2, "c", "a", "b", 9);
    assert s2.(txs := s2.txs[3 := s2.txs[3].(waiting := Create("a"))]) == Ring();
  }

  // ----- The run -----

  lemma ServeNext(s: Session, requests: seq<Request>, n: nat)
    requires n < |requests|
    ensures ServeAll(s, requests[..n + 1]).store == Step(ServeAll(s, requests[..n]).store, requests[n])
  {
    hide Serve, Step;
    assert requests[..n + 1][..n] == requests[..n];
    ServeIsStep(ServeAll(s, requests[..n]), requests[n]);
  }

  /** From an empty store, with a clock that runs forward, nine requests lead to the ring. */
  lemma RingIsReached()
    ensures Fresh(Start()) && ServeAll(Start(), REQUESTS).store == Ring()
  {
    hide ServeAll, Step, Ring, Trio;
    assert ServeAll(Start(), REQUESTS[..0]).store == Empty(true) by { NothingServed(); }
    ServeNext(Start(), REQUESTS, 0);
    ServeNext(Start(), REQUESTS, 1);
    ServeNext(Start(), REQUESTS, 2);
    Begins();
    ServeNext(Start(), REQUESTS, 3);
    ServeNext(Start(), REQUESTS, 4);
    ServeNext(Start(), REQUESTS, 5);
    Reads();
    ServeNext(Start(), REQUESTS, 6);
    ServeNext(Start(), REQUESTS, 7);
    ServeNext(Start(), REQUESTS, 8);
    Commits();
    assert REQUESTS[..9] == REQUESTS;
  }

  lemma NothingServed()
    ensures ServeAll(Start(), REQUESTS[..0]).store == Empty(true)
  {
  }

  /** All three are deadlocked. */
  lemma RingIsDeadlock()
    ensures Deadlocked(Ring(), 1) && Deadlocked(Ring(), 2) && Deadlocked(Ring(), 3)
  {
    hide Locks, Create;
    var s := Ring();
    OneLock(s, 2, "b", "b");
    OneLock(s, 3, "c", "c");
    OneLock(s, 1, "a", "a");
    assert WaitsFor(s, 1, 2) && WaitsFor(s, 2, 3) && WaitsFor(s, 3, 1);
    assert Leads(s, 1, 1, [1, 2, 3, 1]) && Leads(s, 2, 2, [2, 3, 1, 2]) && Leads(s, 3, 3, [3, 1, 2, 3]);
  }

  predicate Again(r: Request) {
    && r.CommitWrites?
    && ((r.own == Some(1) && r.writes == Create("b")) || (r.own == Some(2) && r.writes == Create("c"))
        || (r.own == Some(3) && r.writes == Create("a")))
  }

  lemma RingStep(r: Request)
    requires Again(r)
    ensures Step(Ring(), r) == Ring() && Commit(Ring(), r.writes, r.own, r.now).1 == Refused(TooMuchContention)
  {
    hide Commit, Create;
    var s := Ring();
    CommitWaits(s, 1, 2, 3, "a", "b", "c", r.now);
    CommitWaits(s, 2, 3, 1, "b", "c", "a", r.now);
    CommitWaits(s, 3, 1, 2, "c", "a", "b", r.now);
    assert s.txs[1 := s.txs[1].(waiting := Create("b"))] == s.txs;
    assert s.txs[2 := s.txs[2].(waiting := Create("c"))] == s.txs;
    assert s.txs[3 := s.txs[3].(waiting := Create("a"))] == s.txs;
  }

  /** However often and in whatever order the three commits are tried again, nothing changes. */
  lemma {:induction false} RingOfThreeStays(s: Session, requests: seq<Request>)
    requires s.store == Ring() && forall i :: 0 <= i < |requests| ==> Again(requests[i])
    ensures ServeAll(s, requests).store == Ring()
  {
    hide Serve, Step, Ring, Again;
    if requests != [] {
      var n := |requests| - 1;
      RingOfThreeStays(s, requests[..n]);
      ServeIsStep(ServeAll(s, requests[..n]), requests[n]);
      RingStep(requests[n]);
    }
  }
}
