/**
 Which rows a query answers, which commits a lock covers, and which commits are refused for it:
 each told without the functions that compute it.
 */
module Contention {
  import opened Common
  import opened Store
  import opened Sessions
  import opened Serializability
  import opened Ranges
  import opened Locking
  import opened WriteEffects
  import opened Deadlock

  // ----- The rows of an answer -----

  /** `range` holds exactly the documents in the scope of the query that pass its filter. */
  ghost predicate IsRange(q: Query, db: Db, range: Db) {
    && (forall p :: p in range <==> p in db && q.scope(p) && (q.filter.None? || q.filter.value(p, db[p].fields)))
    && (forall p :: p in range ==> range[p] == db[p])
  }

  lemma RangeIs(q: Query, db: Db, range: Db)
    requires IsRange(q, db, range)
    ensures Range(q, db) == range
  {
    assert forall p :: p in Range(q, db) <==> p in range;
  }

  /** The places of the picked paths that are in the range, in order. */
  ghost predicate Places(range: Db, paths: seq<Path>, at: seq<nat>) {
    && (forall i :: 0 <= i < |at| ==> at[i] < |paths| && paths[at[i]] in range)
    && (forall i, j :: 0 <= i < j < |at| ==> at[i] < at[j])
    && (forall k :: 0 <= k < |paths| && paths[k] in range ==> k in at)
  }

  function RowOf(range: Db, p: Path): seq<Row> {
    if p in range then [(p, range[p])] else []
  }

  lemma PickedFirst(range: Db, paths: seq<Path>)
    requires paths != []
    ensures Picked(range, paths) == RowOf(range, paths[0]) + Picked(range, paths[1..])
  {
  }

  lemma {:induction false} PickedLast(range: Db, paths: seq<Path>)
    requires paths != []
    ensures Picked(range, paths) == Picked(range, paths[..|paths| - 1]) + RowOf(range, paths[|paths| - 1])
  {
    var n := |paths| - 1;
    PickedFirst(range, paths);
    if n == 0 {
      assert Picked(range, paths[1..]) == [] && Picked(range, paths[..n]) == [];
    } else {
      PickedFirst(range, paths[..n]);
      PickedLast(range, paths[1..]);
      hide Picked, RowOf;
      assert paths[1..][..n - 1] == paths[..n][1..] && paths[1..][n - 1] == paths[n] && paths[..n][0] == paths[0];
    }
  }

  /** The rows are those of the picked paths at these places. */
  ghost predicate RowsAt(range: Db, paths: seq<Path>, at: seq<nat>, rows: seq<Row>)
    requires forall i :: 0 <= i < |at| ==> at[i] < |paths| && paths[at[i]] in range
  {
    |rows| == |at| && forall i :: 0 <= i < |at| ==> rows[i] == (paths[at[i]], range[paths[at[i]]])
  }

  lemma PlacesNext(range: Db, paths: seq<Path>, at: seq<nat>)
    requires paths != [] && Places(range, paths[..|paths| - 1], at)
    ensures Places(range, paths, if paths[|paths| - 1] in range then at + [|paths| - 1] else at)
  {
    var n := |paths| - 1;
    assert forall k :: 0 <= k < n ==> paths[..n][k] == paths[k];
    forall k | 0 <= k < |paths| && paths[k] in range ensures k in if paths[n] in range then at + [n] else at {
      if k < n { assert paths[..n][k] in range; }
    }
  }

  lemma RowsNext(range: Db, paths: seq<Path>, at: seq<nat>, rows: seq<Row>)
    requires paths != [] && Places(range, paths[..|paths| - 1], at) && RowsAt(range, paths[..|paths| - 1], at, rows)
    requires Places(range, paths, if paths[|paths| - 1] in range then at + [|paths| - 1] else at)
    ensures var n := |paths| - 1;
            if paths[n] in range then RowsAt(range, paths, at + [n], rows + [(paths[n], range[paths[n]])])
            else RowsAt(range, paths, at, rows)
  {
    var n := |paths| - 1;
    assert forall k :: 0 <= k < n ==> paths[..n][k] == paths[k];
  }

  lemma {:induction false} PickedAt(range: Db, paths: seq<Path>) returns (at: seq<nat>)
    ensures Places(range, paths, at) && RowsAt(range, paths, at, Picked(range, paths))
  {
    at := [];
    if paths != [] {
      var n := |paths| - 1;
      PickedLast(range, paths);
      at := PickedAt(range, paths[..n]);
      hide Picked, RowsAt;
      PlacesNext(range, paths, at);
      RowsNext(range, paths, at, Picked(range, paths[..n]));
      hide Places;
      assert Picked(range, paths[..n]) + [] == Picked(range, paths[..n]);
      at := if paths[n] in range then at + [n] else at;
    }
  }

  /**
   The answer to a query is what it picks from its range: one row, with the document, for every
   picked path that is in the range, in the order of the picks.
   */
  lemma RowsAre(q: Query, db: Db, range: Db) returns (at: seq<nat>)
    requires IsRange(q, db, range)
    ensures Places(range, q.pick(range), at) && |Rows(q, db)| == |at|
    ensures forall i :: 0 <= i < |at| ==> Rows(q, db)[i] == (q.pick(range)[at[i]], db[q.pick(range)[at[i]]])
  {
    RangeIs(q, db, range);
    at := PickedAt(range, q.pick(range));
  }

  // ----- What a range lock covers -----

  lemma {:induction false} TransformIs(writes: seq<Write>, p: Path)
    ensures AnyTransform(WritesTo(writes, p)) <==>
              exists k :: 0 <= k < |writes| && writes[k].op.path == p && writes[k].transforms != []
  {
    if writes != [] {
      var n := |writes| - 1;
      var before, all := WritesTo(writes[..n], p), WritesTo(writes, p);
      TransformIs(writes[..n], p);
      if i :| 0 <= i < |before| && before[i].transforms != [] { assert all[i] == before[i]; }
      if writes[n].op.path == p { assert all[|all| - 1] == writes[n]; }
      if i :| 0 <= i < |all| && all[i].transforms != [] {
        if i < |before| { assert before[i] == all[i]; }
      }
    }
  }

  /** The preview of writes without transforms leaves what the writes leave. */
  lemma {:induction false} PreviewLeaves(before: Option<Document>, writes: seq<Write>, p: Path)
    requires !AnyTransform(WritesTo(writes, p))
    ensures Preview(before, WritesTo(writes, p)).Ok?
    ensures Leaves(before, writes, p, 0, Preview(before, WritesTo(writes, p)).value)
  {
    hide ApplyWrite, TransformedField;
    if writes != [] {
      var n := |writes| - 1;
      NoTransformBefore(writes, p);
      PreviewLeaves(before, writes[..n], p);
      PreviewNext(before, writes, p);
      if writes[n].op.path == p {
        var d := Preview(before, WritesTo(writes[..n], p)).value;
        WriteFails(writes[n], d, 0, 0);
        StepLeaves(before, writes, p, 0, 0, d, ApplyWrite(writes[n], d, 0, 0).value);
      }
    }
  }

  /** The document passes the filter of the query. */
  ghost predicate InFilter(q: Query, p: Path, d: Option<Document>) {
    d.Some? && (q.filter.None? || q.filter.value(p, d.value.fields))
  }

  lemma LeavesOne(before: Option<Document>, writes: seq<Write>, p: Path, d: Option<Document>, e: Option<Document>)
    requires Leaves(before, writes, p, 0, d) && Leaves(before, writes, p, 0, e)
    ensures SameContent(d, e)
  {
    hide FieldAfter, CreatedAfter;
    ContentIsFields(d, e);
  }

  /**
   A range lock covers a write to a path of its scope if and only if the query has no filter, or
   the outcome depends on a transform, or the stored document or the one the writes leave passes.
   */
  lemma CoversIff(h: History, q: Query, p: Path, writes: seq<Write>)
    ensures Covers(h, q, p, writes) <==>
              && q.scope(p)
              && (|| q.filter.None?
                  || (exists k :: 0 <= k < |writes| && writes[k].op.path == p && writes[k].transforms != [])
                  || InFilter(q, p, Get(h, p))
                  || exists d :: Leaves(Get(h, p), writes, p, 0, d) && InFilter(q, p, d))
  {
    hide WritesTo, Preview, Get, FieldAfter, CreatedAfter;
    TransformIs(writes, p);
    if !AnyTransform(WritesTo(writes, p)) {
      PreviewLeaves(Get(h, p), writes, p);
      var next := Preview(Get(h, p), WritesTo(writes, p)).value;
      if d :| Leaves(Get(h, p), writes, p, 0, d) && InFilter(q, p, d) { LeavesOne(Get(h, p), writes, p, d, next); }
    }
  }

  /**
   A transaction holds a lock on what a commit writes if and only if it has read a document that
   the commit writes, or one of its queries covers one.
   */
  lemma LocksIff(s: Store, id: TxId, writes: seq<Write>)
    ensures Locks(s, id, writes) <==>
              && id in s.txs
              && exists k :: && 0 <= k < |writes|
                             && (|| writes[k].op.path in s.txs[id].readSet
                                 || exists i :: && 0 <= i < |s.txs[id].queries|
                                                && Covers(s.history, s.txs[id].queries[i].query, writes[k].op.path,
                                                          writes))
  {
    hide Covers;
    if id in s.txs {
      var t := s.txs[id];
      forall p ensures p in t.readSet.Keys * Written(writes) <==>
                       p in t.readSet && exists k :: 0 <= k < |writes| && writes[k].op.path == p
      {
        if k :| 0 <= k < |writes| && writes[k].op.path == p { assert writes[k] in writes; }
      }
      if k :| 0 <= k < |writes| && writes[k].op.path in t.readSet {
        assert writes[k].op.path in t.readSet.Keys * Written(writes);
      }
      if k, i :| && 0 <= k < |writes| && 0 <= i < |t.queries|
                 && Covers(s.history, t.queries[i].query, writes[k].op.path, writes)
      {
        assert writes[k] in writes;
        assert RangeCovers(s.history, t.queries[i].query, writes);
      }
      if RangeLocks(s.history, t.queries, writes) {
        var i :| 0 <= i < |t.queries| && RangeCovers(s.history, t.queries[i].query, writes);
        var p :| p in Written(writes) && Covers(s.history, t.queries[i].query, p, writes);
        var w :| w in writes && w.op.path == p;
        var k :| 0 <= k < |writes| && writes[k] == w;
      }
    }
  }

  /** Outside a transaction a commit is held back if and only if a live transaction holds a lock on it. */
  lemma HeldBackIff(s: Store, writes: seq<Write>, now: int)
    ensures Commit(s, writes, None, now).1 == Refused(TooMuchContention) <==>
              exists id :: Live(s, id) && Locks(s, id, writes)
  {
    hide Locks, Apply;
    ApplyIsNoContention(CheckContention(s, writes, None).0, writes, None, now);
    if id :| Live(s, id) && Locks(s, id, writes) { assert id in Holders(s, writes, None); }
    if Holders(s, writes, None) != {} { var id :| id in Holders(s, writes, None); }
  }

  /**
   In a transaction a commit past the check of its own reads is held back if and only if a
   transaction that does not wait for it holds a lock in its way, and none that does is older.
   */
  lemma HeldBackInIff(s: Store, writes: seq<Write>, id: TxId, now: int)
    requires Live(s, id) && CheckTransaction(s, id, writes).1.None?
    ensures Commit(s, writes, Some(id), now).1 == Refused(TooMuchContention) <==>
              && (exists h: TxId :: h != id && Live(s, h) && Locks(s, h, writes) && !Locks(s, id, s.txs[h].waiting))
              && !exists h: TxId :: && h != id && Live(s, h) && Locks(s, h, writes) && Locks(s, id, s.txs[h].waiting)
                              && (s.txs[h].startedAt < s.txs[id].startedAt ||
                                  (s.txs[h].startedAt == s.txs[id].startedAt && h < id))
  {
    hide Locks, Apply, Conflicted;
    SameCycle(s, writes, id);
    ApplyIsNoContention(CheckContention(s, writes, Some(id)).0, writes, Some(id), now);
    var s1 := Wait(s, id, []);
    var holders, cycle := Holders(s, writes, Some(id)), Cycle(s, writes, id);
    assert forall h :: h in holders <==> h != id && Live(s, h) && Locks(s, h, writes);
    assert forall h :: h in cycle <==> h in holders && Locks(s, id, s.txs[h].waiting);
    assert forall h :: h in cycle ==> Older(s1, h, id) == Older(s, h, id);
    assert cycle <= holders;
    if exists h :: h != id && Live(s, h) && Locks(s, h, writes) && !Locks(s, id, s.txs[h].waiting) {
      var h :| h != id && Live(s, h) && Locks(s, h, writes) && !Locks(s, id, s.txs[h].waiting);
      assert h in holders && h !in cycle;
    }
  }
}
