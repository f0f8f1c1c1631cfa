/**
 The range locks of queries. The lock judges a commit by a preview of its writes, before their
 preconditions are checked and without their time; a commit that it lets pass changes no
 document of the range, removes none from it and brings none into it.
 */
module Ranges {
  import opened Common
  import opened Store
  import opened Sessions
  import opened Serializability

  /** The same stored content, whatever the times and the version. */
  predicate SameContent(c: Option<Document>, d: Option<Document>) {
    match (c, d)
    case (None, None) => true
    case (Some(x), Some(y)) => x.fields == y.fields
    case _ => false
  }

  /** Without a transform the content a write leaves depends on the content it finds only. */
  lemma WriteContent(w: Write, c: Option<Document>, d: Option<Document>, time: int, version: nat)
    requires SameContent(c, d) && w.transforms == []
    ensures var x, y := ApplyWrite(w, c, time, version), ApplyWrite(w, d, 0, 0);
            x.Ok? && y.Ok? && SameContent(x.value, y.value)
  {
  }

  function StagedAt(db: Db, stage: Stage, p: Path): Option<Document> {
    if p in stage then stage[p].current else Lookup(db, p)
  }

  lemma {:induction false} NoTransformBefore(writes: seq<Write>, p: Path)
    requires writes != [] && !AnyTransform(WritesTo(writes, p))
    ensures var n := |writes| - 1;
            && !AnyTransform(WritesTo(writes[..n], p))
            && (writes[n].op.path == p ==> writes[n].transforms == [])
  {
    var n := |writes| - 1;
    var before, all := WritesTo(writes[..n], p), WritesTo(writes, p);
    forall i | 0 <= i < |before| ensures before[i].transforms == [] { assert all[i] == before[i]; }
    if writes[n].op.path == p { assert all[|all| - 1] == writes[n]; }
  }

  lemma PreviewNext(current: Option<Document>, writes: seq<Write>, p: Path)
    requires writes != []
    ensures var n := |writes| - 1;
            var before := Preview(current, WritesTo(writes[..n], p));
            Preview(current, WritesTo(writes, p)) ==
              if before.Ok? && writes[n].op.path == p then ApplyWrite(writes[n], before.value, 0, 0) else before
  {
    var n := |writes| - 1;
    var before := WritesTo(writes[..n], p);
    if writes[n].op.path == p {
      assert (before + [writes[n]])[..|before|] == before;
    } else {
      assert before + [] == before;
    }
  }

  lemma StagedElsewhere(db: Db, stage: Stage, w: Write, time: int, version: nat, p: Path)
    requires StageOne(db, stage, w, time, version).Ok? && w.op.path != p
    ensures StagedAt(db, StageOne(db, stage, w, time, version).value, p) == StagedAt(db, stage, p)
  {
  }

  lemma StagedHere(db: Db, stage: Stage, w: Write, time: int, version: nat)
    requires StageOne(db, stage, w, time, version).Ok?
    ensures var p := w.op.path;
            var next := ApplyWrite(w, StagedAt(db, stage, p), time, version);
            next.Ok? && SameContent(StagedAt(db, StageOne(db, stage, w, time, version).value, p), next.value)
  {
  }

  /** What is staged for a path has the content that the preview gives it. */
  lemma {:induction false} StagedIsPreview(db: Db, writes: seq<Write>, time: int, version: nat, p: Path)
    requires StageAll(db, writes, time, version).Ok? && !AnyTransform(WritesTo(writes, p))
    ensures var preview := Preview(Lookup(db, p), WritesTo(writes, p));
            preview.Ok? && SameContent(StagedAt(db, StageAll(db, writes, time, version).value, p), preview.value)
  {
    hide StageOne, ApplyWrite;
    if writes != [] {
      var n := |writes| - 1;
      var stage := StageAll(db, writes[..n], time, version).value;
      NoTransformBefore(writes, p);
      StagedIsPreview(db, writes[..n], time, version, p);
      PreviewNext(Lookup(db, p), writes, p);
      if writes[n].op.path == p {
        StagedHere(db, stage, writes[n], time, version);
        WriteContent(writes[n], StagedAt(db, stage, p), Preview(Lookup(db, p), WritesTo(writes[..n], p)).value, time,
                     version);
      } else {
        StagedElsewhere(db, stage, writes[n], time, version, p);
      }
    }
  }

  /** A path whose change the lock does not cover is outside the range, before and after. */
  lemma UncoveredOutside(h: History, q: Query, writes: seq<Write>, time: int, version: nat, p: Path)
    requires StageAll(Current(h), writes, time, version).Ok? && !RangeCovers(h, q, writes) && p in Written(writes)
    ensures q.scope(p) ==>
              && !DocPasses(q, p, Get(h, p))
              && !DocPasses(q, p, StagedAt(Current(h), StageAll(Current(h), writes, time, version).value, p))
  {
    hide StageAll, Preview, WritesTo, Get, Current;
    assert !Covers(h, q, p, writes);
    CurrentIsLatest(h, p);
    if q.scope(p) { StagedIsPreview(Current(h), writes, time, version, p); }
  }

  /** An uncovered commit leaves the range as it was: nothing changes, leaves or enters. */
  lemma UncoveredRangeStays(h: History, q: Query, writes: seq<Write>, time: int, version: nat)
    requires StageAll(Current(h), writes, time, version).Ok? && !RangeCovers(h, q, writes)
    ensures Range(q, Publish(Current(h), StageAll(Current(h), writes, time, version).value)) == Range(q, Current(h))
  {
    hide StageAll, RangeCovers, Publish, Current, Get, DocPasses;
    var stage := StageAll(Current(h), writes, time, version).value;
    var before, after := Current(h), Publish(Current(h), stage);
    StagedVersions(before, writes, time, version);
    forall p ensures Lookup(Range(q, after), p) == Lookup(Range(q, before), p) {
      PublishedAt(before, stage, p);
      CurrentIsLatest(h, p);
      RangeAt(q, before, p);
      RangeAt(q, after, p);
      if Changes(stage, p) { UncoveredOutside(h, q, writes, time, version, p); }
    }
    SameDatabase(Range(q, after), Range(q, before));
  }

  lemma RangeAt(q: Query, db: Db, p: Path)
    ensures Lookup(Range(q, db), p) == if q.scope(p) && DocPasses(q, p, Lookup(db, p)) then Lookup(db, p) else None
  {
  }
}
