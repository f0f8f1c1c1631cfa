/**
 Whole runs of the store. A session keeps, beside the store, what every transaction was
 seen and the accepted commits in order. The accepted commits, executed one after the other
 on a plain database, read what the transactions read and leave what the store holds.
 */
module Sessions {
  import opened Common
  import opened Store

  // ----- A serial database -----

  /** A commit as its client saw it: what it had read and been answered, and what it wrote when. */
  datatype LogEntry = LogEntry(
    seen: map<Path, Option<Document>>, answers: seq<Answer>, writes: seq<Write>, time: int)

  /** A query and the rows its client was given. */
  datatype Answer = Answer(query: Query, rows: seq<Row>)

  datatype Serial = Serial(db: Db, version: nat)

  predicate ReadsFrom(db: Db, seen: map<Path, Option<Document>>) {
    forall p :: p in seen ==> Lookup(db, p) == seen[p]
  }

  predicate AnswersFrom(db: Db, answers: seq<Answer>) {
    forall i :: 0 <= i < |answers| ==> Rows(answers[i].query, db) == answers[i].rows
  }

  /** One transaction alone on the database: its reads and answers must be there, then it writes. */
  function Execute(x: Serial, e: LogEntry): Option<Serial> {
    var staged := StageAll(x.db, e.writes, e.time, x.version + 1);
    if !ReadsFrom(x.db, e.seen) || !AnswersFrom(x.db, e.answers) || staged.Err? then None
    else if AnyChange(staged.value) then Some(Serial(Publish(x.db, staged.value), x.version + 1))
    else Some(x)
  }

  function Replay(x: Serial, log: seq<LogEntry>): Option<Serial> {
    if log == [] then Some(x)
    else
      var n := |log| - 1;
      var y := Replay(x, log[..n]);
      if y.None? then None else Execute(y.value, log[n])
  }

  /** The database of the serial execution when it last was at version `v` or below. */
  function ReplayTo(x: Serial, log: seq<LogEntry>, v: nat): Db {
    if log == [] then x.db
    else
      var y := Replay(x, log);
      if y.Some? && y.value.version <= v then y.value.db else ReplayTo(x, log[..|log| - 1], v)
  }

  // ----- Sessions -----

  /** `stale` and `staleQueries` mark the reads and queries that were behind already when made. */
  datatype Session = Session(
    store: Store,
    seen: map<TxId, map<Path, Option<Document>>>,
    answers: map<TxId, seq<Answer>>,
    stale: set<(TxId, Path)>,
    staleQueries: set<(TxId, nat)>,
    log: seq<LogEntry>)

  datatype Request =
    | BeginTransaction(readOnly: bool, snapshot: Moment, now: int)
    | BeginAt(version: nat, readTime: int, now: int)
    | GetDocument(id: TxId, path: Path, now: int)
    | AskQuery(id: TxId, query: Query, now: int)
    | CommitWrites(writes: seq<Write>, own: Option<TxId>, now: int)
    | RollbackTransaction(id: TxId)
    | RetryTransaction(previous: TxId, now: int)
    | ExpireTransaction(id: TxId)
    | CompactTo(floor: nat)

  function SeenBy(s: Session, id: TxId): map<Path, Option<Document>> {
    if id in s.seen then s.seen[id] else map[]
  }

  function AnswersTo(s: Session, id: TxId): seq<Answer> {
    if id in s.answers then s.answers[id] else []
  }

  function ServeRead(s: Session, id: TxId, p: Path, now: int): Session {
    var (st, r) := Read(s.store, id, p, now);
    if r.Err? then s.(store := st)
    else
      var behind := VersionOf(Get(st.history, p)) != VersionOf(r.value);
      s.(store := st,
         seen := s.seen[id := SeenBy(s, id)[p := r.value]],
         stale := if behind && p !in SeenBy(s, id) then s.stale + {(id, p)} else s.stale)
  }

  function RowPaths(rows: seq<Row>): set<Path> {
    set row | row in rows :: row.0
  }

  /** The documents told so far, with the rows of an answer. */
  function Told(seen: map<Path, Option<Document>>, rows: seq<Row>): map<Path, Option<Document>> {
    if rows == [] then seen
    else
      var n := |rows| - 1;
      Told(seen, rows[..n])[rows[n].0 := Some(rows[n].1)]
  }

  function ToldAs(seen: map<Path, Option<Document>>, p: Path): Option<Document> {
    if p in seen then seen[p] else None
  }

  function ServeQuery(s: Session, id: TxId, q: Query, now: int): Session {
    var (st, r) := RunQuery(s.store, id, q, now);
    if r.Err? then s.(store := st)
    else
      var rows := r.value;
      var told := Told(SeenBy(s, id), rows);
      var behind := Versions(Rows(q, Current(st.history))) != Versions(rows);
      s.(store := st,
         seen := s.seen[id := told],
         answers := s.answers[id := AnswersTo(s, id) + [Answer(q, rows)]],
         stale := s.stale + (set p | p in RowPaths(rows) && p !in SeenBy(s, id)
                                     && VersionOf(Get(st.history, p)) != VersionOf(ToldAs(told, p)) :: (id, p)),
         staleQueries := if behind then s.staleQueries + {(id, |AnswersTo(s, id)|)} else s.staleQueries)
  }

  /** The commit as its client sees it: with all its transaction was told. */
  function LoggedAs(s: Session, writes: seq<Write>, own: Option<TxId>, time: int): LogEntry {
    if own.Some? then LogEntry(SeenBy(s, own.value), AnswersTo(s, own.value), writes, time)
    else LogEntry(map[], [], writes, time)
  }

  function ServeCommit(s: Session, writes: seq<Write>, own: Option<TxId>, now: int): Session {
    var (st, o) := Commit(s.store, writes, own, now);
    if o.Refused? || (own.Some? && own.value in s.store.txs && s.store.txs[own.value].readOnly) then
      s.(store := st)
    else
      s.(store := st, log := s.log + [LoggedAs(s, writes, own, o.time)])
  }

  function Serve(s: Session, r: Request): Session {
    match r
    case BeginTransaction(readOnly, snapshot, now) =>
      s.(store := Begin(s.store, readOnly, s.store.version, ReadTime(s.store, now), snapshot, now).0)
    case BeginAt(version, readTime, now) =>
      if s.store.floor <= version <= s.store.version
      then s.(store := Begin(s.store, true, version, readTime, AtBegin, now).0) else s
    case GetDocument(id, path, now) => ServeRead(s, id, path, now)
    case AskQuery(id, query, now) => ServeQuery(s, id, query, now)
    case CommitWrites(writes, own, now) => ServeCommit(s, writes, own, now)
    case RollbackTransaction(id) => s.(store := Rollback(s.store, id))
    case RetryTransaction(previous, now) => s.(store := Retry(s.store, previous, now).0)
    case ExpireTransaction(id) => s.(store := Expire(s.store, id))
    case CompactTo(floor) => s.(store := Compact(s.store, floor))
  }

  function ServeAll(s: Session, requests: seq<Request>): Session {
    if requests == [] then s
    else Serve(ServeAll(s, requests[..|requests| - 1]), requests[|requests| - 1])
  }

  // ----- The store alone -----

  /** What a request does to the store, whatever is remembered of the run. */
  function Step(st: Store, r: Request): Store {
    match r
    case BeginTransaction(readOnly, snapshot, now) =>
      Begin(st, readOnly, st.version, ReadTime(st, now), snapshot, now).0
    case BeginAt(version, readTime, now) =>
      if st.floor <= version <= st.version then Begin(st, true, version, readTime, AtBegin, now).0 else st
    case GetDocument(id, path, now) => Read(st, id, path, now).0
    case AskQuery(id, query, now) => RunQuery(st, id, query, now).0
    case CommitWrites(writes, own, now) => Commit(st, writes, own, now).0
    case RollbackTransaction(id) => Rollback(st, id)
    case RetryTransaction(previous, now) => Retry(st, previous, now).0
    case ExpireTransaction(id) => Expire(st, id)
    case CompactTo(floor) => Compact(st, floor)
  }

  lemma ServeIsStep(s: Session, r: Request)
    ensures Serve(s, r).store == Step(s.store, r)
  {
    hide Commit, Read, RunQuery, Begin, Retry, Compact, Rows, Current, Get;
  }

  // ----- Invariants -----

  predicate Sorted(es: seq<Entry>) {
    forall i, j :: 0 <= i < j < |es| ==> es[i].version < es[j].version
  }

  predicate Tagged(es: seq<Entry>) {
    forall i :: 0 <= i < |es| && es[i].doc.Some? ==> es[i].doc.value.version == es[i].version
  }

  predicate GoodEntries(es: seq<Entry>, version: nat) {
    es != [] && Sorted(es) && Tagged(es) && es[|es| - 1].version <= version
  }

  predicate GoodHistory(h: History, version: nat) {
    forall p :: p in h ==> GoodEntries(h[p], version)
  }

  /** What a transaction recorded and was seen is its snapshot. */
  predicate GoodTransaction(s: Store, seen: map<Path, Option<Document>>, id: TxId)
    requires id in s.txs
  {
    var t := s.txs[id];
    && t.readVersion <= s.version
    && (t.snapshotPending ==> seen == map[])
    && (if t.readOnly then t.readSet == map[] else t.readSet.Keys == seen.Keys)
    && (forall p :: p in seen ==> seen[p] == GetAt(s.history, p, t.readVersion))
    && (forall p :: p in t.readSet ==> t.readSet[p] == VersionOf(GetAt(s.history, p, t.readVersion)))
  }

  /** What a transaction was answered is its snapshot, and its ledger is of those answers. */
  ghost predicate GoodQueries(s: Store, answers: seq<Answer>, id: TxId)
    requires id in s.txs
  {
    var t := s.txs[id];
    && (t.snapshotPending ==> answers == [])
    && (if t.readOnly then t.queries == [] else |t.queries| == |answers|)
    && (forall i :: 0 <= i < |answers| ==> answers[i].rows == Rows(answers[i].query, DbAt(s.history, t.readVersion)))
    && (forall i :: 0 <= i < |t.queries| ==> t.queries[i] == Ran(answers[i].query, Versions(answers[i].rows)))
  }

  ghost predicate GoodTransactions(s: Session) {
    && (forall id :: id in s.store.txs ==> id <= s.store.nextTx)
    && (forall id :: id in s.seen ==> id in s.store.txs)
    && (forall id :: id in s.answers ==> id in s.store.txs)
    && (forall id :: Usable(s.store, id) ==> GoodTransaction(s.store, SeenBy(s, id), id))
    && (forall id :: Usable(s.store, id) ==> GoodQueries(s.store, AnswersTo(s, id), id))
  }

  /** The serial execution of the log is where the store is, now and at every retained version. */
  ghost predicate GoodLog(start: Serial, s: Session) {
    && Replay(start, s.log) == Some(Serial(Current(s.store.history), s.store.version))
    && (forall v: nat, p :: s.store.floor <= v && start.version <= v ==>
          GetAt(s.store.history, p, v) == Lookup(ReplayTo(start, s.log, v), p))
  }

  ghost predicate Good(start: Serial, s: Session) {
    && GoodHistory(s.store.history, s.store.version)
    && s.store.floor <= s.store.version
    && GoodTransactions(s)
    && GoodLog(start, s)
  }

  /** Any store without transactions is a starting point. */
  predicate Fresh(s: Session) {
    && GoodHistory(s.store.history, s.store.version)
    && s.store.floor <= s.store.version
    && s.store.txs == map[] && s.log == []
    && s.seen == map[] && s.answers == map[] && s.stale == {} && s.staleQueries == {}
  }

  function StartOf(s: Session): Serial {
    Serial(Current(s.store.history), s.store.version)
  }
}
