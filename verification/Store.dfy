/**
 The Firestore core's document store (crates/fireemu-core-firestore/src/store.rs) as a value:
 multi-version document histories, transactions that read one snapshot, and commits that are
 admitted only past the read-set check and past the read locks of the other transactions.

 Time is in microseconds, the precision at which commit times are stored. Deadlines are not
 clocked: a transaction's expiry is a step of its own that may happen whenever it is active.
 */
module Store {
  import opened Common

  type Path = string
  type TxId = nat

  datatype Value =
    | Null
    | Bool(b: bool)
    | Integer(n: int)
    | Text(s: string)
    | Timestamp(micros: int)
    | Opaque(tag: int)

  type Fields = map<string, Value>

  datatype Document = Document(fields: Fields, createTime: int, updateTime: int, version: nat)

  /** The live documents, forgetting the histories. */
  type Db = map<Path, Document>

  /** One retained version of a path; no document is a tombstone. */
  datatype Entry = Entry(version: nat, doc: Option<Document>)

  type History = map<Path, seq<Entry>>

  const MAX_INT64: int := 0x7fff_ffff_ffff_ffff
  const MIN_INT64: int := -0x8000_0000_0000_0000

  // ----- Writes -----

  datatype Precondition = Always | Exists(exists_: bool) | UpdateTime(time: int)

  datatype TransformKind = ServerTimestamp | Increment(delta: Value)

  datatype Transform = Transform(field: string, kind: TransformKind)

  /** `mask` lists the fields a masked set replaces, or removes when `fields` lacks them. */
  datatype Op =
    | Set(path: Path, fields: Fields, mask: Option<set<string>>)
    | Delete(path: Path)
    | Verify(path: Path)

  datatype Write = Write(op: Op, precondition: Precondition, transforms: seq<Transform>)

  datatype Error =
    | InvalidTransaction
    | NoLongerValid
    | CrossTransactionContention
    | TooMuchContention
    | ConcurrentModification
    | ReadOnlyTransaction
    | PreconditionFailed
    | InvalidWrite

  function Saturate(n: int): (r: int)
    ensures MIN_INT64 <= r <= MAX_INT64
    ensures MIN_INT64 <= n <= MAX_INT64 ==> r == n
    ensures n <= MIN_INT64 ==> r == MIN_INT64
    ensures n >= MAX_INT64 ==> r == MAX_INT64
  {
    if n > MAX_INT64 then MAX_INT64 else if n < MIN_INT64 then MIN_INT64 else n
  }

  function Transformed(fields: Fields, t: Transform, time: int): Result<Value, Error> {
    match t.kind
    case ServerTimestamp => Ok(Timestamp(time))
    case Increment(delta) =>
      if !delta.Integer? then Err(InvalidWrite)
      else if t.field in fields && fields[t.field].Integer? then
        Ok(Integer(Saturate(fields[t.field].n + delta.n)))
      else Ok(delta)
  }

  function ApplyTransforms(fields: Fields, ts: seq<Transform>, time: int): Result<Fields, Error>
    decreases |ts|
  {
    if ts == [] then Ok(fields)
    else
      var v := Transformed(fields, ts[0], time);
      if v.Err? then Err(v.error)
      else ApplyTransforms(fields[ts[0].field := v.value], ts[1..], time)
  }

  function Masked(base: Fields, fields: Fields, mask: set<string>): Fields {
    map f | f in base.Keys + fields.Keys && (if f in mask then f in fields else f in base)
      :: if f in mask then fields[f] else base[f]
  }

  function ApplyWrite(w: Write, current: Option<Document>, time: int, version: nat)
    : Result<Option<Document>, Error>
  {
    match w.op
    case Verify(_) => if w.transforms != [] then Err(InvalidWrite) else Ok(current)
    case Delete(_) => if w.transforms != [] then Err(InvalidWrite) else Ok(None)
    case Set(_, fields, mask) =>
      var create := if current.Some? then current.value.createTime else time;
      var base := if current.Some? then current.value.fields else map[];
      var next := if mask.None? then fields else Masked(base, fields, mask.value);
      var done := ApplyTransforms(next, w.transforms, time);
      if done.Err? then Err(done.error)
      else Ok(Some(Document(done.value, create, time, version)))
  }

  predicate Admits(p: Precondition, current: Option<Document>) {
    match p
    case Always => true
    case Exists(b) => b == current.Some?
    case UpdateTime(t) => current.Some? && current.value.updateTime == t
  }

  /** Whether a write leaves the stored content as it was, and so keeps the version. */
  predicate NoChange(w: Write, current: Option<Document>, next: Option<Document>) {
    w.op.Verify? ||
    match (current, next)
    case (Some(c), Some(n)) => c.fields == n.fields
    case (None, None) => true
    case _ => false
  }

  // ----- Staging the writes of one commit -----

  datatype Staged = Staged(current: Option<Document>, changed: bool)

  type Stage = map<Path, Staged>

  function Lookup(db: Db, p: Path): (r: Option<Document>)
    ensures r.Some? <==> p in db
  {
    if p in db then Some(db[p]) else None
  }

  /** One write on top of what is staged; the writes of one commit compose on a path. */
  function StageOne(db: Db, stage: Stage, w: Write, time: int, version: nat): Result<Stage, Error> {
    var p := w.op.path;
    var before := if p in stage then stage[p] else Staged(Lookup(db, p), false);
    if !Admits(w.precondition, before.current) then Err(PreconditionFailed)
    else
      var next := ApplyWrite(w, before.current, time, version);
      if next.Err? then Err(next.error)
      else if NoChange(w, before.current, next.value) then Ok(stage[p := before])
      else Ok(stage[p := Staged(next.value, true)])
  }

  function StageAll(db: Db, writes: seq<Write>, time: int, version: nat): Result<Stage, Error> {
    if writes == [] then Ok(map[])
    else
      var n := |writes| - 1;
      var prefix := StageAll(db, writes[..n], time, version);
      if prefix.Err? then prefix else StageOne(db, prefix.value, writes[n], time, version)
  }

  predicate Changes(stage: Stage, p: Path) {
    p in stage && stage[p].changed
  }

  predicate AnyChange(stage: Stage) {
    exists p :: p in stage && stage[p].changed
  }

  /** The database after the staged changes: what a serial execution of the writes leaves. */
  function Publish(db: Db, stage: Stage): Db {
    map p | p in db.Keys + stage.Keys && (if Changes(stage, p) then stage[p].current.Some? else p in db)
      :: if Changes(stage, p) then stage[p].current.value else db[p]
  }

  /** The histories after the staged changes: one more entry on every changed path. */
  function PublishHistory(h: History, stage: Stage, version: nat): History {
    map p | p in h.Keys + stage.Keys && (p in h || Changes(stage, p))
      :: Retained(h, p) + (if Changes(stage, p) then [Entry(version, stage[p].current)] else [])
  }

  // ----- Reading histories -----

  function Retained(h: History, p: Path): seq<Entry> {
    if p in h then h[p] else []
  }

  /** The newest document at or before `v`. */
  function AsOf(es: seq<Entry>, v: nat): Option<Document> {
    if es == [] then None
    else if es[|es| - 1].version <= v then es[|es| - 1].doc
    else AsOf(es[..|es| - 1], v)
  }

  function Latest(es: seq<Entry>): Option<Document> {
    if es == [] then None else es[|es| - 1].doc
  }

  function GetAt(h: History, p: Path, v: nat): Option<Document> {
    AsOf(Retained(h, p), v)
  }

  function Get(h: History, p: Path): Option<Document> {
    Latest(Retained(h, p))
  }

  function Current(h: History): Db {
    map p | p in h && Get(h, p).Some? :: Get(h, p).value
  }

  /** The live documents as they were at a version. */
  function DbAt(h: History, v: nat): Db {
    map p | p in h && GetAt(h, p, v).Some? :: GetAt(h, p, v).value
  }

  function VersionOf(d: Option<Document>): Option<nat> {
    if d.Some? then Some(d.value.version) else None
  }

  // ----- Queries -----

  /**
   A query selects a range, the documents in its scope that pass its filter, and picks its rows
   from the range: the order, the cursors, the offset and the limit are all in `pick`.
   */
  datatype Query = Query(scope: Path -> bool, filter: Option<(Path, Fields) -> bool>, pick: Db -> seq<Path>)

  type Row = (Path, Document)

  predicate Passes(q: Query, p: Path, fields: Fields) {
    q.filter.None? || q.filter.value(p, fields)
  }

  function Range(q: Query, db: Db): Db {
    map p | p in db && q.scope(p) && Passes(q, p, db[p].fields) :: db[p]
  }

  function Picked(range: Db, paths: seq<Path>): seq<Row> {
    if paths == [] then []
    else (if paths[0] in range then [(paths[0], range[paths[0]])] else []) + Picked(range, paths[1..])
  }

  /** The rows a query answers on a database. */
  function Rows(q: Query, db: Db): seq<Row> {
    Picked(Range(q, db), q.pick(Range(q, db)))
  }

  /** What is kept of an answer: the name and the version of every row, in order. */
  function Versions(rows: seq<Row>): seq<(Path, nat)> {
    seq(|rows|, i requires 0 <= i < |rows| => (rows[i].0, rows[i].1.version))
  }

  // ----- What a commit would do to a range -----

  function Written(writes: seq<Write>): set<Path> {
    set w | w in writes :: w.op.path
  }

  function WritesTo(writes: seq<Write>, p: Path): seq<Write> {
    if writes == [] then []
    else
      var n := |writes| - 1;
      WritesTo(writes[..n], p) + if writes[n].op.path == p then [writes[n]] else []
  }

  /** What the writes would leave of a document, preconditions aside. */
  function Preview(current: Option<Document>, writes: seq<Write>): Result<Option<Document>, Error> {
    if writes == [] then Ok(current)
    else
      var n := |writes| - 1;
      var before := Preview(current, writes[..n]);
      if before.Err? then before else ApplyWrite(writes[n], before.value, 0, 0)
  }

  predicate AnyTransform(writes: seq<Write>) {
    exists i :: 0 <= i < |writes| && writes[i].transforms != []
  }

  predicate DocPasses(q: Query, p: Path, d: Option<Document>) {
    d.Some? && Passes(q, p, d.value.fields)
  }

  /** A write to `p` may touch the range: `p` is in it, or enters it, or that cannot be told. */
  predicate Covers(h: History, q: Query, p: Path, writes: seq<Write>) {
    && q.scope(p)
    && (q.filter.None? ||
        var ws := WritesTo(writes, p);
        var next := Preview(Get(h, p), ws);
        AnyTransform(ws) || DocPasses(q, p, Get(h, p)) || next.Err? || DocPasses(q, p, next.value))
  }

  predicate RangeCovers(h: History, q: Query, writes: seq<Write>) {
    exists p :: p in Written(writes) && Covers(h, q, p, writes)
  }

  // ----- Transactions -----

  datatype Ran = Ran(query: Query, rows: seq<(Path, nat)>)

  datatype TxState =
    Active | RetryableAborted | RolledBack | Committed | CommitRefused | Retried | Finished

  /**
   `readSet` and `queries` are both the ledger the commit checks and the locks held until the
   transaction finishes; `waiting` holds the writes of a commit refused for another's locks.
   */
  datatype Transaction = Transaction(
    readOnly: bool,
    readVersion: nat,
    readTime: int,
    snapshotPending: bool,
    startedAt: int,
    readSet: map<Path, Option<nat>>,
    queries: seq<Ran>,
    waiting: seq<Write>,
    deadlockVictim: bool,
    firstRead: Option<int>,
    state: TxState)

  datatype Store = Store(
    production: bool,
    history: History,
    version: nat,
    floor: nat,
    lastCommitTime: Option<int>,
    txs: map<TxId, Transaction>,
    nextTx: TxId)

  function Empty(production: bool): Store {
    Store(production, map[], 0, 0, None, map[], 0)
  }

  /** A transaction that requests are still served on. */
  predicate Usable(s: Store, id: TxId) {
    id in s.txs && s.txs[id].state == Active && s.txs[id].readVersion >= s.floor
  }

  function UnusableError(s: Store, id: TxId): Error {
    if id !in s.txs then InvalidTransaction
    else if s.txs[id].state == RetryableAborted && s.txs[id].deadlockVictim then CrossTransactionContention
    else NoLongerValid
  }

  function FinishedTx(t: Transaction, state: TxState): Transaction {
    if t.state == Active then t.(state := state, waiting := [], readSet := map[], queries := []) else t.(state := state)
  }

  function Finish(s: Store, id: TxId, state: TxState): Store {
    if id in s.txs then s.(txs := s.txs[id := FinishedTx(s.txs[id], state)]) else s
  }

  function ReadTime(s: Store, now: int): int {
    if s.lastCommitTime.Some? && s.lastCommitTime.value > now then s.lastCommitTime.value else now
  }

  function NextCommitTime(s: Store, now: int): int {
    if s.lastCommitTime.Some? && s.lastCommitTime.value >= now then s.lastCommitTime.value + 1 else now
  }

  /** When the snapshot is taken: at the begin, by the read that begins, or at the first use. */
  datatype Moment = AtBegin | WithRead | AtFirstUse

  function Begin(s: Store, readOnly: bool, readVersion: nat, readTime: int, snapshot: Moment, now: int): (Store, TxId) {
    var id := s.nextTx + 1;
    var firstRead := if snapshot == WithRead then Some(readTime) else None;
    var pending := snapshot == AtFirstUse;
    var t := Transaction(readOnly, readVersion, readTime, pending, now, map[], [], [], false, firstRead, Active);
    (s.(txs := s.txs[id := t], nextTx := id), id)
  }

  /** The first use of a transaction takes its snapshot, and its first read has a time. */
  function Touch(s: Store, id: TxId, now: int): Store {
    if !Usable(s, id) then s
    else
      var t := s.txs[id];
      var pinned :=
        if t.snapshotPending then t.(snapshotPending := false, readVersion := s.version, readTime := ReadTime(s, now))
        else t;
      var time := if t.readOnly then pinned.readTime else ReadTime(s, now);
      var read := if pinned.firstRead.None? then pinned.(firstRead := Some(time)) else pinned;
      s.(txs := s.txs[id := read])
  }

  /** A document read: served from the snapshot and recorded for a read-write transaction. */
  function Read(s0: Store, id: TxId, p: Path, now: int): (Store, Result<Option<Document>, Error>) {
    var s := Touch(s0, id, now);
    if !Usable(s, id) then (s, Err(UnusableError(s, id)))
    else
      var t := s.txs[id];
      var d := GetAt(s.history, p, t.readVersion);
      if t.readOnly then (s, Ok(d))
      else (s.(txs := s.txs[id := t.(readSet := t.readSet[p := VersionOf(d)])]), Ok(d))
  }

  function Noted(readSet: map<Path, Option<nat>>, rows: seq<Row>): map<Path, Option<nat>> {
    if rows == [] then readSet
    else
      var n := |rows| - 1;
      Noted(readSet, rows[..n])[rows[n].0 := Some(rows[n].1.version)]
  }

  /** A query: answered from the snapshot; its rows and its range are recorded. */
  function RunQuery(s0: Store, id: TxId, q: Query, now: int): (Store, Result<seq<Row>, Error>) {
    var s := Touch(s0, id, now);
    if !Usable(s, id) then (s, Err(UnusableError(s, id)))
    else
      var t := s.txs[id];
      var rows := Rows(q, DbAt(s.history, t.readVersion));
      if t.readOnly then (s, Ok(rows))
      else
        var t' := t.(readSet := Noted(t.readSet, rows), queries := t.queries + [Ran(q, Versions(rows))]);
        (s.(txs := s.txs[id := t']), Ok(rows))
  }

  predicate ReadConflicted(s: Store, id: TxId)
    requires id in s.txs
  {
    exists p :: p in s.txs[id].readSet && VersionOf(Get(s.history, p)) != s.txs[id].readSet[p]
  }

  predicate QueryBehind(h: History, ran: Ran) {
    Versions(Rows(ran.query, Current(h))) != ran.rows
  }

  predicate QueryConflicted(s: Store, id: TxId)
    requires id in s.txs
  {
    exists i :: 0 <= i < |s.txs[id].queries| && QueryBehind(s.history, s.txs[id].queries[i])
  }

  predicate Conflicted(s: Store, id: TxId)
    requires id in s.txs
  {
    ReadConflicted(s, id) || QueryConflicted(s, id)
  }

  predicate RangeLocks(h: History, queries: seq<Ran>, writes: seq<Write>) {
    exists i :: 0 <= i < |queries| && RangeCovers(h, queries[i].query, writes)
  }

  predicate Locks(s: Store, id: TxId, writes: seq<Write>) {
    && id in s.txs
    && (s.txs[id].readSet.Keys * Written(writes) != {} || RangeLocks(s.history, s.txs[id].queries, writes))
  }

  /** The other transactions whose locks a commit of `writes` runs into. */
  function Holders(s: Store, writes: seq<Write>, own: Option<TxId>): set<TxId> {
    set id | id in s.txs && Usable(s, id) && !s.txs[id].readOnly && own != Some(id) && Locks(s, id, writes)
  }

  /** `holder` waits for a lock of `own`, so refusing `own` would close a cycle of two. */
  predicate InCycle(s: Store, holder: TxId, own: TxId)
    requires holder in s.txs
  {
    Locks(s, own, s.txs[holder].waiting)
  }

  /** Older first: by begin instant, then by the order in which ids were issued. */
  predicate Older(s: Store, a: TxId, b: TxId)
    requires a in s.txs && b in s.txs
  {
    s.txs[a].startedAt < s.txs[b].startedAt ||
    (s.txs[a].startedAt == s.txs[b].startedAt && a < b)
  }

  function Victim(t: Transaction): Transaction {
    FinishedTx(t.(deadlockVictim := true), RetryableAborted)
  }

  function Sacrifice(s: Store, ids: set<TxId>): Store {
    s.(txs := map id | id in s.txs :: if id in ids then Victim(s.txs[id]) else s.txs[id])
  }

  function Wait(s: Store, id: TxId, writes: seq<Write>): Store {
    if id in s.txs then s.(txs := s.txs[id := s.txs[id].(waiting := writes)]) else s
  }

  /** The holders that wait for a lock of the transaction `id` that ran into theirs. */
  function Cycle(s: Store, writes: seq<Write>, id: TxId): set<TxId> {
    set h | h in Holders(s, writes, Some(id)) && InCycle(s, h, id)
  }

  /** The transaction `id` ran into locks: of a cycle of two the younger is aborted. */
  function Resolve(s: Store, writes: seq<Write>, id: TxId): (Store, Option<Error>)
    requires id in s.txs
  {
    var cycle := Cycle(s, writes, id);
    if exists h :: h in cycle && Older(s, h, id) then (Sacrifice(s, {id}), Some(CrossTransactionContention))
    else if cycle == Holders(s, writes, Some(id)) then (Sacrifice(s, cycle), None)
    else (Wait(Sacrifice(s, cycle), id, writes), Some(TooMuchContention))
  }

  /** Refuses a commit that runs into the locks of other transactions. */
  function CheckContention(s0: Store, writes: seq<Write>, own: Option<TxId>): (Store, Option<Error>) {
    var s := if own.Some? then Wait(s0, own.value, []) else s0;
    if Holders(s, writes, own) == {} then (s, None)
    else if own.None? || own.value !in s.txs then (s, Some(TooMuchContention))
    else Resolve(s, writes, own.value)
  }

  /** The checks on the committing transaction itself, before the locks of the others. */
  function CheckTransaction(s: Store, id: TxId, writes: seq<Write>): (Store, Option<Error>) {
    if !Usable(s, id) then (s, Some(UnusableError(s, id)))
    else if s.txs[id].readOnly && writes != [] then
      (if s.production then Finish(s, id, CommitRefused) else s, Some(ReadOnlyTransaction))
    else if !s.txs[id].readOnly && Conflicted(s, id) then
      (Finish(s, id, RetryableAborted), Some(ConcurrentModification))
    else (s, None)
  }

  datatype Outcome = Done(time: int, version: nat) | Refused(error: Error)

  function CommitTime(s: Store, writes: seq<Write>, own: Option<TxId>, now: int): (int, bool) {
    if writes == [] && own.Some? && own.value in s.txs && s.txs[own.value].firstRead.Some? then
      (s.txs[own.value].firstRead.value, false)
    else (NextCommitTime(s, now), true)
  }

  /** The staged changes, if any, become visible under the next version. */
  function Visible(s: Store, stage: Stage): Store {
    if AnyChange(stage)
    then s.(version := s.version + 1, history := PublishHistory(s.history, stage, s.version + 1))
    else s
  }

  function Ended(s: Store, own: Option<TxId>, state: TxState): Store {
    if own.Some? then Finish(s, own.value, state) else s
  }

  /** Stages the admitted writes and publishes them; a refused precondition ends the transaction. */
  function Apply(s: Store, writes: seq<Write>, own: Option<TxId>, now: int): (Store, Outcome) {
    var (time, consumed) := CommitTime(s, writes, own, now);
    var staged := StageAll(Current(s.history), writes, time, s.version + 1);
    if staged.Err? then
      (if staged.error == PreconditionFailed then Ended(s, own, CommitRefused) else s, Refused(staged.error))
    else
      var s' := Visible(s.(lastCommitTime := if consumed then Some(time) else s.lastCommitTime), staged.value);
      (Ended(s', own, Committed), Done(time, s'.version))
  }

  function Commit(s: Store, writes: seq<Write>, own: Option<TxId>, now: int): (Store, Outcome) {
    var (s1, e1) := if own.Some? then CheckTransaction(s, own.value, writes) else (s, None);
    if e1.Some? then (s1, Refused(e1.value))
    else
      var (s2, e2) := CheckContention(s1, writes, own);
      if e2.Some? then (s2, Refused(e2.value)) else Apply(s2, writes, own, now)
  }

  function Rollback(s: Store, id: TxId): Store {
    if Usable(s, id) then Finish(s, id, RolledBack) else s
  }

  /** A retry rolls back an attempt that is still active and uses up one that ended. */
  function Consume(s: Store, previous: TxId): Store
    requires previous in s.txs
  {
    match s.txs[previous].state
    case Active => Finish(Finish(s, previous, RolledBack), previous, Retried)
    case Finished => s
    case _ => Finish(s, previous, Retried)
  }

  /** A new attempt in the lineage of `previous`. */
  function Retry(s: Store, previous: TxId, now: int): (Store, Result<TxId, Error>) {
    if previous !in s.txs || s.txs[previous].readOnly || s.txs[previous].state == Retried then
      (s, Err(InvalidTransaction))
    else
      var (s', id) := Begin(Consume(s, previous), false, s.version, ReadTime(s, now), AtFirstUse, now);
      (s', Ok(id))
  }

  /** A deadline passed: the transaction is finished and its locks are free. */
  function Expire(s: Store, id: TxId): Store {
    if id in s.txs && s.txs[id].state == Active then Finish(s, id, Finished) else s
  }

  // ----- Compaction -----

  function CountUpTo(es: seq<Entry>, v: nat): (n: nat)
    ensures n <= |es|
  {
    if es == [] || es[0].version > v then 0 else 1 + CountUpTo(es[1..], v)
  }

  /** Keeps the newest entry at or before the floor and everything after it. */
  function CompactEntries(es: seq<Entry>, floor: nat): seq<Entry> {
    var n := CountUpTo(es, floor);
    var kept := es[if n == 0 then 0 else n - 1..];
    if |kept| == 1 && kept[0].doc.None? && kept[0].version <= floor then [] else kept
  }

  function CompactHistory(h: History, floor: nat): History {
    map p | p in h && CompactEntries(h[p], floor) != [] :: CompactEntries(h[p], floor)
  }

  /** Raises the floor; the retention roots choose it, never past the current version. */
  function Compact(s: Store, floor: nat): Store {
    if floor <= s.floor || floor > s.version then s
    else s.(floor := floor, history := CompactHistory(s.history, floor))
  }
}
