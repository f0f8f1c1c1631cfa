/**
 What a commit leaves, told field by field: which value every field of a document has after the
 writes of the commit, when the document was created and updated, whether it has a new version,
 and which commits are refused for their writes.
 */
module WriteEffects {
  import opened Common
  import opened Store
  import opened Sessions
  import opened Serializability
  import opened Ranges

  function Member(fields: Fields, f: string): Option<Value> {
    if f in fields then Some(fields[f]) else None
  }

  function FieldOf(d: Option<Document>, f: string): Option<Value> {
    if d.Some? then Member(d.value.fields, f) else None
  }

  // ----- The writes, seen by one field -----

  /** What the transforms of one write make of a field, in order. */
  function TransformedField(v: Option<Value>, ts: seq<Transform>, f: string, time: int): Option<Value>
    decreases |ts|
  {
    if ts == [] then v
    else if ts[0].field != f then TransformedField(v, ts[1..], f, time)
    else
      var next :=
        match ts[0].kind
        case ServerTimestamp => Timestamp(time)
        case Increment(delta) =>
          if v.Some? && v.value.Integer? && delta.Integer? then Integer(Saturate(v.value.n + delta.n)) else delta;
      TransformedField(Some(next), ts[1..], f, time)
  }

  /** What the writes make of a field of the document at `p`. */
  function FieldAfter(v: Option<Value>, writes: seq<Write>, p: Path, f: string, time: int): Option<Value> {
    if writes == [] then v
    else
      var n := |writes| - 1;
      var w, before := writes[n], FieldAfter(v, writes[..n], p, f, time);
      if w.op.path != p || w.op.Verify? then before
      else if w.op.Delete? then None
      else
        var set_ := if w.op.mask.None? || f in w.op.mask.value then Member(w.op.fields, f) else before;
        TransformedField(set_, w.transforms, f, time)
  }

  /** When the document at `p` was created, if the writes leave one. */
  function CreatedAfter(created: Option<int>, writes: seq<Write>, p: Path, time: int): Option<int> {
    if writes == [] then created
    else
      var n := |writes| - 1;
      var w, before := writes[n], CreatedAfter(created, writes[..n], p, time);
      if w.op.path != p || w.op.Verify? then before
      else if w.op.Delete? then None
      else if before.Some? then before
      else Some(time)
  }

  function CreateTimeOf(d: Option<Document>): Option<int> {
    if d.Some? then Some(d.value.createTime) else None
  }

  function UpdateTimeOf(d: Option<Document>): Option<int> {
    if d.Some? then Some(d.value.updateTime) else None
  }

  /** `d` is what the writes make of `before`. */
  ghost predicate Leaves(before: Option<Document>, writes: seq<Write>, p: Path, time: int, d: Option<Document>) {
    && CreateTimeOf(d) == CreatedAfter(CreateTimeOf(before), writes, p, time)
    && forall f :: FieldOf(d, f) == FieldAfter(FieldOf(before, f), writes, p, f, time)
  }

  // ----- One write -----

  lemma {:induction false} TransformsAt(fields: Fields, ts: seq<Transform>, time: int, f: string)
    requires ApplyTransforms(fields, ts, time).Ok?
    ensures Member(ApplyTransforms(fields, ts, time).value, f) == TransformedField(Member(fields, f), ts, f, time)
    decreases |ts|
  {
    if ts != [] {
      var v := Transformed(fields, ts[0], time).value;
      TransformsAt(fields[ts[0].field := v], ts[1..], time, f);
    }
  }

  lemma MaskedAt(base: Fields, fields: Fields, mask: set<string>, f: string)
    ensures Member(Masked(base, fields, mask), f) == if f in mask then Member(fields, f) else Member(base, f)
  {
  }

  /** One write, seen by one field. */
  lemma WriteAt(w: Write, current: Option<Document>, time: int, version: nat, f: string)
    requires ApplyWrite(w, current, time, version).Ok?
    ensures var d := ApplyWrite(w, current, time, version).value;
            && (w.op.Delete? ==> d.None?)
            && (w.op.Verify? ==> d == current)
            && (w.op.Set? ==>
                  && d.Some? && d.value.version == version && d.value.updateTime == time
                  && d.value.createTime == (if current.Some? then current.value.createTime else time)
                  && FieldOf(d, f) ==
                       TransformedField(if w.op.mask.None? || f in w.op.mask.value then Member(w.op.fields, f)
                                        else FieldOf(current, f), w.transforms, f, time))
  {
    if w.op.Set? {
      var base := if current.Some? then current.value.fields else map[];
      var next := if w.op.mask.None? then w.op.fields else Masked(base, w.op.fields, w.op.mask.value);
      if w.op.mask.Some? { MaskedAt(base, w.op.fields, w.op.mask.value, f); }
      TransformsAt(next, w.transforms, time, f);
    }
  }

  lemma SameFields(x: Fields, y: Fields)
    requires forall f :: Member(x, f) == Member(y, f)
    ensures x == y
  {
    assert forall f :: f in x ==> Member(x, f) == Some(x[f]) && Member(y, f) == Some(x[f]);
    assert forall f :: f in y ==> Member(y, f) == Some(y[f]) && Member(x, f) == Some(y[f]);
  }

  /** Content is the same if and only if existence and every field are. */
  lemma ContentIsFields(x: Option<Document>, y: Option<Document>)
    ensures SameContent(x, y) <==> x.Some? == y.Some? && forall f :: FieldOf(x, f) == FieldOf(y, f)
  {
    if x.Some? && y.Some? && forall f :: FieldOf(x, f) == FieldOf(y, f) {
      forall f ensures Member(x.value.fields, f) == Member(y.value.fields, f) { assert FieldOf(x, f) == FieldOf(y, f); }
      SameFields(x.value.fields, y.value.fields);
    }
  }

  // ----- The staged writes -----

  lemma StepLeaves(before: Option<Document>, writes: seq<Write>, p: Path, time: int, version: nat, d: Option<Document>,
                   d': Option<Document>)
    requires writes != [] && writes[|writes| - 1].op.path == p && Leaves(before, writes[..|writes| - 1], p, time, d)
    requires ApplyWrite(writes[|writes| - 1], d, time, version).Ok?
    requires var next := ApplyWrite(writes[|writes| - 1], d, time, version).value;
             d' == next || (SameContent(d', next) && d' == d)
    ensures Leaves(before, writes, p, time, d')
  {
    hide ApplyWrite, TransformedField;
    var w := writes[|writes| - 1];
    var next := ApplyWrite(w, d, time, version).value;
    forall f ensures FieldOf(d', f) == FieldAfter(FieldOf(before, f), writes, p, f, time) {
      WriteAt(w, d, time, version, f);
      ContentIsFields(d', next);
      assert FieldOf(d, f) == FieldAfter(FieldOf(before, f), writes[..|writes| - 1], p, f, time);
    }
    WriteAt(w, d, time, version, "");
  }

  lemma StagedStep(db: Db, stage: Stage, w: Write, time: int, version: nat)
    requires StageOne(db, stage, w, time, version).Ok?
    ensures var p := w.op.path;
            var d, d' := StagedAt(db, stage, p), StagedAt(db, StageOne(db, stage, w, time, version).value, p);
            var next := ApplyWrite(w, d, time, version);
            && next.Ok? && Admits(w.precondition, d)
            && (if NoChange(w, d, next.value) then d' == d && SameContent(d', next.value) else d' == next.value)
  {
    hide ApplyWrite;
    WriteAtVerify(w, StagedAt(db, stage, w.op.path), time, version);
  }

  lemma WriteAtVerify(w: Write, current: Option<Document>, time: int, version: nat)
    ensures w.op.Verify? && ApplyWrite(w, current, time, version).Ok? ==>
            ApplyWrite(w, current, time, version).value == current
  {
  }

  lemma {:induction false} StagedLeaves(db: Db, writes: seq<Write>, time: int, version: nat, p: Path)
    requires StageAll(db, writes, time, version).Ok?
    ensures Leaves(Lookup(db, p), writes, p, time, StagedAt(db, StageAll(db, writes, time, version).value, p))
  {
    hide StageOne, ApplyWrite, NoChange, TransformedField;
    if writes != [] {
      var n := |writes| - 1;
      var stage := StageAll(db, writes[..n], time, version).value;
      var stage' := StageAll(db, writes, time, version).value;
      StagedLeaves(db, writes[..n], time, version, p);
      if writes[n].op.path == p {
        StagedStep(db, stage, writes[n], time, version);
        StepLeaves(Lookup(db, p), writes, p, time, version, StagedAt(db, stage, p), StagedAt(db, stage', p));
      } else {
        StagedElsewhere(db, stage, writes[n], time, version, p);
      }
    }
  }

  // ----- What a commit leaves -----

  /** What is published is what is staged. */
  lemma PublishedIsStaged(s: Store, writes: seq<Write>, own: Option<TxId>, now: int, p: Path)
    requires Commit(s, writes, own, now).1.Done?
    ensures var (s', o) := Commit(s, writes, own, now);
            var staged := StageAll(Current(s.history), writes, o.time, s.version + 1);
            && staged.Ok? && Get(s'.history, p) == StagedAt(Current(s.history), staged.value, p)
            && s'.version == (if AnyChange(staged.value) then s.version + 1 else s.version)
  {
    hide Commit, StageAll, Current, PublishHistory;
    var (s', o) := Commit(s, writes, own, now);
    var e := LogEntry(map[], [], writes, o.time);
    DoneExtends(s, writes, own, now, e);
    var stage := StageOf(s, e).value;
    CurrentIsLatest(s.history, p);
    if AnyChange(stage) {
      PublishedHistory(s.history, stage, s.version + 1, p);
      assert Retained(s.history, p) + [] == Retained(s.history, p);
    }
  }

  /** An accepted commit leaves at every path what its writes, in order, make of the document. */
  lemma CommitLeaves(s: Store, writes: seq<Write>, own: Option<TxId>, now: int, p: Path)
    requires Commit(s, writes, own, now).1.Done?
    ensures var (s', o) := Commit(s, writes, own, now);
            Leaves(Get(s.history, p), writes, p, o.time, Get(s'.history, p))
  {
    hide Commit, StageAll, Current, Leaves;
    PublishedIsStaged(s, writes, own, now, p);
    CurrentIsLatest(s.history, p);
    StagedLeaves(Current(s.history), writes, Commit(s, writes, own, now).1.time, s.version + 1, p);
  }

  predicate LastTo(writes: seq<Write>, p: Path, n: nat) {
    n < |writes| && writes[n].op.path == p && forall j :: n < j < |writes| ==> writes[j].op.path != p
  }

  lemma {:induction false} AfterLast(v: Option<Value>, created: Option<int>, writes: seq<Write>, p: Path, n: nat,
                                     f: string, time: int)
    requires LastTo(writes, p, n)
    ensures FieldAfter(v, writes, p, f, time) == FieldAfter(v, writes[..n + 1], p, f, time)
    ensures CreatedAfter(created, writes, p, time) == CreatedAfter(created, writes[..n + 1], p, time)
    decreases |writes|
  {
    var m := |writes| - 1;
    if n == m {
      assert writes[..n + 1] == writes;
    } else {
      assert writes[..m][..n + 1] == writes[..n + 1];
      AfterLast(v, created, writes[..m], p, n, f, time);
    }
  }

  /**
   The last write to a path decides. A delete leaves nothing. A set leaves a document: without a
   mask exactly the new fields, with one the new fields inside the mask and outside it what the
   earlier writes had left. A verify leaves what the earlier writes had left.
   */
  lemma LastWriteDecides(s: Store, writes: seq<Write>, own: Option<TxId>, now: int, p: Path, n: nat)
    requires Commit(s, writes, own, now).1.Done? && LastTo(writes, p, n)
    ensures var (s', o) := Commit(s, writes, own, now);
            var before, d, w := Get(s.history, p), Get(s'.history, p), writes[n];
            && (w.op.Delete? ==> d == None)
            && (w.op.Verify? ==> Leaves(before, writes[..n], p, o.time, d))
            && (w.op.Set? ==> d.Some?)
            && (w.op.Set? && w.op.mask.None? && w.transforms == [] ==> d.value.fields == w.op.fields)
            && (w.op.Set? && w.op.mask.Some? && w.transforms == [] ==>
                  forall f :: FieldOf(d, f) ==
                    if f in w.op.mask.value then (if f in w.op.fields then Some(w.op.fields[f]) else None)
                    else FieldAfter(FieldOf(before, f), writes[..n], p, f, o.time))
  {
    hide Commit, Get;
    CommitLeaves(s, writes, own, now, p);
    var (s', o) := Commit(s, writes, own, now);
    var before, d, w := Get(s.history, p), Get(s'.history, p), writes[n];
    assert writes[..n + 1][..n] == writes[..n];
    AfterLast(None, CreateTimeOf(before), writes, p, n, "", o.time);
    forall f ensures FieldOf(d, f) == FieldAfter(FieldOf(before, f), writes[..n + 1], p, f, o.time) {
      AfterLast(FieldOf(before, f), None, writes, p, n, f, o.time);
    }
    if w.op.Set? && w.op.mask.None? && w.transforms == [] {
      forall f ensures Member(d.value.fields, f) == Member(w.op.fields, f) {
        assert FieldOf(d, f) == FieldAfter(FieldOf(before, f), writes[..n + 1], p, f, o.time);
      }
      SameFields(d.value.fields, w.op.fields);
    }
  }

  /** The write leaves the field alone. */
  predicate LeavesAlone(w: Write, f: string) {
    || w.op.Verify?
    || (&& w.op.Set? && w.op.mask.Some? && f !in w.op.mask.value
        && forall i :: 0 <= i < |w.transforms| ==> w.transforms[i].field != f)
  }

  lemma {:induction false} NotTransformed(v: Option<Value>, ts: seq<Transform>, f: string, time: int)
    requires forall i :: 0 <= i < |ts| ==> ts[i].field != f
    ensures TransformedField(v, ts, f, time) == v
    decreases |ts|
  {
    if ts != [] { NotTransformed(v, ts[1..], f, time); }
  }

  lemma {:induction false} PassedBy(v: Option<Value>, writes: seq<Write>, p: Path, f: string, time: int)
    requires forall i :: 0 <= i < |writes| && writes[i].op.path == p ==> LeavesAlone(writes[i], f)
    ensures FieldAfter(v, writes, p, f, time) == v
  {
    if writes != [] {
      var n := |writes| - 1;
      PassedBy(v, writes[..n], p, f, time);
      if writes[n].op.path == p && writes[n].op.Set? { NotTransformed(v, writes[n].transforms, f, time); }
    }
  }

  /** A field that no write of an accepted commit names keeps its value. */
  lemma UnnamedFieldStays(s: Store, writes: seq<Write>, own: Option<TxId>, now: int, p: Path, f: string)
    requires Commit(s, writes, own, now).1.Done?
    requires forall i :: 0 <= i < |writes| && writes[i].op.path == p ==> LeavesAlone(writes[i], f)
    ensures FieldOf(Get(Commit(s, writes, own, now).0.history, p), f) == FieldOf(Get(s.history, p), f)
  {
    hide Commit, Get;
    CommitLeaves(s, writes, own, now, p);
    PassedBy(FieldOf(Get(s.history, p), f), writes, p, f, Commit(s, writes, own, now).1.time);
  }

  lemma {:induction false} CreatedStays(created: Option<int>, writes: seq<Write>, p: Path, time: int)
    requires created.Some? && forall i :: 0 <= i < |writes| && writes[i].op.path == p ==> !writes[i].op.Delete?
    ensures CreatedAfter(created, writes, p, time) == created
  {
    if writes != [] { CreatedStays(created, writes[..|writes| - 1], p, time); }
  }

  lemma {:induction false} CreatedNow(created: Option<int>, writes: seq<Write>, p: Path, time: int)
    requires created.None? || exists i :: 0 <= i < |writes| && writes[i].op.path == p && writes[i].op.Delete?
    ensures CreatedAfter(created, writes, p, time) in {None, Some(time)}
  {
    if writes != [] {
      var n := |writes| - 1;
      if !(writes[n].op.path == p && writes[n].op.Delete?) {
        if i :| 0 <= i < |writes| && writes[i].op.path == p && writes[i].op.Delete? {
          assert writes[..n][i] == writes[i];
        }
        CreatedNow(created, writes[..n], p, time);
      }
    }
  }

  /**
   A document left by an accepted commit keeps its create time if it stood before and no write
   deleted it; otherwise it was created at the commit.
   */
  lemma CreateTimeKept(s: Store, writes: seq<Write>, own: Option<TxId>, now: int, p: Path)
    requires Commit(s, writes, own, now).1.Done? && Get(Commit(s, writes, own, now).0.history, p).Some?
    ensures var (s', o) := Commit(s, writes, own, now);
            var before, d := Get(s.history, p), Get(s'.history, p);
            d.value.createTime ==
              if before.Some? && forall i :: 0 <= i < |writes| && writes[i].op.path == p ==> !writes[i].op.Delete?
              then before.value.createTime else o.time
  {
    hide Commit, Get;
    CommitLeaves(s, writes, own, now, p);
    var before, time := Get(s.history, p), Commit(s, writes, own, now).1.time;
    if before.Some? && forall i :: 0 <= i < |writes| && writes[i].op.path == p ==> !writes[i].op.Delete? {
      CreatedStays(CreateTimeOf(before), writes, p, time);
    } else {
      CreatedNow(CreateTimeOf(before), writes, p, time);
    }
  }

  // ----- Versions, update times and refusals -----

  /** The k-th write changes what is stored at its path: it appears, goes, or has another field. */
  ghost predicate ChangedBy(before: Option<Document>, writes: seq<Write>, time: int, k: nat)
    requires k < |writes|
  {
    var p := writes[k].op.path;
    || CreatedAfter(CreateTimeOf(before), writes[..k], p, time).Some? !=
         CreatedAfter(CreateTimeOf(before), writes[..k + 1], p, time).Some?
    || exists f :: FieldAfter(FieldOf(before, f), writes[..k], p, f, time) !=
                     FieldAfter(FieldOf(before, f), writes[..k + 1], p, f, time)
  }

  /** When the document at `p` was last updated, if the first `k` writes leave one. */
  ghost function UpdatedAfter(before: Option<Document>, writes: seq<Write>, p: Path, time: int, k: nat): Option<int>
    requires k <= |writes|
  {
    if k == 0 then UpdateTimeOf(before)
    else if writes[k - 1].op.path == p && ChangedBy(before, writes, time, k - 1) then
      if writes[k - 1].op.Delete? then None else Some(time)
    else UpdatedAfter(before, writes, p, time, k - 1)
  }

  ghost predicate PreconditionHolds(before: Option<Document>, writes: seq<Write>, time: int, k: nat)
    requires k < |writes|
  {
    var p := writes[k].op.path;
    match writes[k].precondition
    case Always => true
    case Exists(b) => b == CreatedAfter(CreateTimeOf(before), writes[..k], p, time).Some?
    case UpdateTime(t) => UpdatedAfter(before, writes, p, time, k) == Some(t)
  }

  /** Only a set is transformed, and an increment is by an integer. */
  predicate ValidWrite(w: Write) {
    && (w.op.Set? || w.transforms == [])
    && forall i :: 0 <= i < |w.transforms| && w.transforms[i].kind.Increment? ==> w.transforms[i].kind.delta.Integer?
  }

  lemma {:induction false} TransformsFail(fields: Fields, ts: seq<Transform>, time: int)
    ensures ApplyTransforms(fields, ts, time).Ok? <==>
              forall i :: 0 <= i < |ts| && ts[i].kind.Increment? ==> ts[i].kind.delta.Integer?
    ensures ApplyTransforms(fields, ts, time).Err? ==> ApplyTransforms(fields, ts, time).error == InvalidWrite
    decreases |ts|
  {
    if ts != [] {
      var v := Transformed(fields, ts[0], time);
      if v.Ok? {
        TransformsFail(fields[ts[0].field := v.value], ts[1..], time);
        assert forall i :: 0 < i < |ts| ==> ts[i] == ts[1..][i - 1];
      }
    }
  }

  lemma WriteFails(w: Write, current: Option<Document>, time: int, version: nat)
    ensures ApplyWrite(w, current, time, version).Ok? <==> ValidWrite(w)
    ensures ApplyWrite(w, current, time, version).Err? ==> ApplyWrite(w, current, time, version).error == InvalidWrite
  {
    if w.op.Set? {
      var base := if current.Some? then current.value.fields else map[];
      TransformsFail(if w.op.mask.None? then w.op.fields else
                     Masked(base, w.op.fields, w.op.mask.value), w.transforms, time);
    }
  }

  /** The stage at `p` after the first `k` writes, against the account of it. */
  ghost predicate Told(db: Db, stage: Stage, writes: seq<Write>, time: int, version: nat, p: Path, k: nat)
    requires k <= |writes|
  {
    var before, d := Lookup(db, p), StagedAt(db, stage, p);
    && Leaves(before, writes[..k], p, time, d)
    && UpdateTimeOf(d) == UpdatedAfter(before, writes, p, time, k)
    && (Changes(stage, p) <==> exists j :: 0 <= j < k && writes[j].op.path == p && ChangedBy(before, writes, time, j))
    && (Changes(stage, p) && d.Some? ==> d.value.version == version)
    && (!Changes(stage, p) ==> d == before)
  }

  lemma LeavesChange(before: Option<Document>, writes: seq<Write>, p: Path, time: int, k: nat, d: Option<Document>,
                     d': Option<Document>)
    requires k < |writes| && writes[k].op.path == p
    requires Leaves(before, writes[..k], p, time, d) && Leaves(before, writes[..k + 1], p, time, d')
    ensures ChangedBy(before, writes, time, k) <==> !SameContent(d, d')
  {
    hide FieldAfter, CreatedAfter;
    ContentIsFields(d, d');
    if !SameContent(d, d') && d.Some? == d'.Some? {
      var f :| FieldOf(d, f) != FieldOf(d', f);
      assert FieldAfter(FieldOf(before, f), writes[..k], p, f, time) != FieldAfter(FieldOf(before, f),
                                                                                   writes[..k + 1], p, f, time);
    }
  }

  lemma ToldHere(db: Db, stage: Stage, writes: seq<Write>, time: int, version: nat, k: nat)
    requires k < |writes| && Told(db, stage, writes, time, version, writes[k].op.path, k)
    requires StageOne(db, stage, writes[k], time, version).Ok?
    ensures Told(db, StageOne(db, stage, writes[k], time, version).value, writes, time, version, writes[k].op.path,
                 k + 1)
  {
    hide ApplyWrite, FieldAfter, CreatedAfter, ChangedBy, Admits;
    var w, p := writes[k], writes[k].op.path;
    var stage' := StageOne(db, stage, w, time, version).value;
    var before, d, d' := Lookup(db, p), StagedAt(db, stage, p), StagedAt(db, stage', p);
    StagedStep(db, stage, w, time, version);
    assert writes[..k + 1][..k] == writes[..k];
    assert Leaves(before, writes[..k + 1], p, time, d') by {
      hide Told, StageOne;
      StepLeaves(before, writes[..k + 1], p, time, version, d, d');
    }
    LeavesChange(before, writes, p, time, k, d, d');
    WriteAt(w, d, time, version, "");
    ChangesIs(db, stage, w, time, version);
  }

  lemma ChangesIs(db: Db, stage: Stage, w: Write, time: int, version: nat)
    requires StageOne(db, stage, w, time, version).Ok?
    ensures var p := w.op.path;
            var d, d' := StagedAt(db, stage, p), StagedAt(db, StageOne(db, stage, w, time, version).value, p);
            Changes(StageOne(db, stage, w, time, version).value, p) <==> Changes(stage, p) || !SameContent(d, d')
  {
    hide ApplyWrite;
    StagedStep(db, stage, w, time, version);
  }

  lemma ToldElsewhere(db: Db, stage: Stage, writes: seq<Write>, time: int, version: nat, p: Path, k: nat)
    requires k < |writes| && Told(db, stage, writes, time, version, p, k) && writes[k].op.path != p
    requires StageOne(db, stage, writes[k], time, version).Ok?
    ensures Told(db, StageOne(db, stage, writes[k], time, version).value, writes, time, version, p, k + 1)
  {
    hide ApplyWrite, ChangedBy, Admits, NoChange;
    var before := Lookup(db, p);
    StagedElsewhere(db, stage, writes[k], time, version, p);
    assert writes[..k + 1][..k] == writes[..k];
  }

  lemma {:induction false} StageIsTold(db: Db, writes: seq<Write>, time: int, version: nat, p: Path, k: nat)
    requires k <= |writes| && StageAll(db, writes[..k], time, version).Ok?
    ensures Told(db, StageAll(db, writes[..k], time, version).value, writes, time, version, p, k)
  {
    hide StageOne, ChangedBy;
    if k > 0 {
      StageNext1(db, writes, k - 1, time, version);
      StageIsTold(db, writes, time, version, p, k - 1);
      hide Told;
      if writes[k - 1].op.path == p {
        ToldHere(db, StageAll(db, writes[..k - 1], time, version).value, writes, time, version, k - 1);
      } else {
        ToldElsewhere(db, StageAll(db, writes[..k - 1], time, version).value, writes, time, version, p, k - 1);
      }
    }
  }

  lemma StageNext1(db: Db, writes: seq<Write>, i: nat, time: int, version: nat)
    requires i < |writes|
    ensures var before, after := StageAll(db, writes[..i], time, version), StageAll(db, writes[..i + 1], time, version);
            after == if before.Err? then before else StageOne(db, before.value, writes[i], time, version)
  {
    hide StageOne;
    assert writes[..i + 1][..i] == writes[..i];
  }

  /** The k-th write passes: its precondition holds where it comes, and it is well formed. */
  ghost predicate FineAt(db: Db, writes: seq<Write>, time: int, k: nat)
    requires k < |writes|
  {
    PreconditionHolds(Lookup(db, writes[k].op.path), writes, time, k) && ValidWrite(writes[k])
  }

  lemma OneFine(db: Db, stage: Stage, writes: seq<Write>, time: int, version: nat, k: nat)
    requires k < |writes| && Told(db, stage, writes, time, version, writes[k].op.path, k)
    ensures var r := StageOne(db, stage, writes[k], time, version);
            && (r.Ok? <==> FineAt(db, writes, time, k))
            && (r.Err? ==> r.error == if PreconditionHolds(Lookup(db, writes[k].op.path), writes, time, k)
                                      then InvalidWrite else PreconditionFailed)
  {
    hide ApplyWrite, ChangedBy, NoChange, FieldAfter;
    WriteFails(writes[k], StagedAt(db, stage, writes[k].op.path), time, version);
  }

  ghost predicate AllFine(db: Db, writes: seq<Write>, time: int, k: nat)
    requires k <= |writes|
  {
    forall i :: 0 <= i < k ==> FineAt(db, writes, time, i)
  }

  /** The first write that does not pass, and the error it gives. */
  ghost predicate FailsAt(db: Db, writes: seq<Write>, time: int, i: nat, error: Error)
    requires i < |writes|
  {
    && AllFine(db, writes, time, i) && !FineAt(db, writes, time, i)
    && error == if PreconditionHolds(Lookup(db, writes[i].op.path), writes, time, i) then InvalidWrite else
      PreconditionFailed
  }

  /** Staging succeeds if and only if every write passes; else the first that does not decides. */
  lemma {:induction false} StagingIff(db: Db, writes: seq<Write>, time: int, version: nat, k: nat)
    requires k <= |writes|
    ensures var r := StageAll(db, writes[..k], time, version);
            && (r.Ok? <==> AllFine(db, writes, time, k))
            && (r.Err? ==> exists i :: 0 <= i < k && FailsAt(db, writes, time, i, r.error))
  {
    hide StageOne, FineAt, PreconditionHolds;
    if k > 0 {
      StagingIff(db, writes, time, version, k - 1);
      StageNext1(db, writes, k - 1, time, version);
      if StageAll(db, writes[..k - 1], time, version).Ok? {
        StageIsTold(db, writes, time, version, writes[k - 1].op.path, k - 1);
        hide Told, StageAll;
        OneFine(db, StageAll(db, writes[..k - 1], time, version).value, writes, time, version, k - 1);
        assert StageAll(db, writes[..k], time, version).Err? ==>
               FailsAt(db, writes, time, k - 1, StageAll(db, writes[..k], time, version).error);
      }
    }
  }

  /** A commit with writes takes the next commit time: later than every earlier one, and not in the past. */
  lemma CommitTimesAdvance(s: Store, writes: seq<Write>, own: Option<TxId>, now: int)
    requires Commit(s, writes, own, now).1.Done? && writes != []
    ensures var (s', o) := Commit(s, writes, own, now);
            && now <= o.time && s'.lastCommitTime == Some(o.time)
            && (s.lastCommitTime.Some? ==> s.lastCommitTime.value < o.time)
            && (s.lastCommitTime.None? || s.lastCommitTime.value < now ==> o.time == now)
            && (s.lastCommitTime.Some? && now <= s.lastCommitTime.value ==> o.time == s.lastCommitTime.value + 1)
  {
    hide StageAll, PublishHistory, Current, Conflicted;
    DoneIsAdmitted(s, writes, own, now);
    TimeIsKept(s, writes, own);
  }

  lemma TimeIsKept(s: Store, writes: seq<Write>, own: Option<TxId>)
    ensures CheckContention(s, writes, own).0.lastCommitTime == s.lastCommitTime
  {
    hide Holders, Cycle;
  }

  /**
   Which commits are accepted: those that pass the check of their own transaction and the locks
   of the others, and whose every write is well formed and finds its precondition true after
   the writes before it.
   */
  lemma AcceptedIff(s: Store, writes: seq<Write>, own: Option<TxId>, now: int)
    ensures Commit(s, writes, own, now).1.Done? <==>
              && (own.Some? ==> CheckTransaction(s, own.value, writes).1.None?)
              && CheckContention(s, writes, own).1.None?
              && forall k :: 0 <= k < |writes| ==>
                   && PreconditionHolds(Get(s.history, writes[k].op.path), writes, NextCommitTime(s, now), k)
                   && ValidWrite(writes[k])
    ensures Commit(s, writes, own, now).1.Refused? && (own.Some? ==> CheckTransaction(s, own.value, writes).1.None?)
            && CheckContention(s, writes, own).1.None? ==>
              exists i :: 0 <= i < |writes| && FailsAt(Current(s.history), writes, NextCommitTime(s, now), i,
                                                       Commit(s, writes, own, now).1.error)
  {
    hide StageAll, Current, PreconditionHolds, CheckContention, Conflicted, Get;
    if own.Some? { TransactionCheckKeeps(s, own.value, writes); }
    ContentionKeeps(s, writes, own);
    TimeIsKept(s, writes, own);
    var a := CheckContention(s, writes, own).0;
    var time := CommitTime(a, writes, own, now).0;
    assert writes != [] ==> time == NextCommitTime(s, now);
    StagingIff(Current(s.history), writes, time, s.version + 1, |writes|);
    assert writes[..|writes|] == writes;
    forall k | 0 <= k < |writes|
      ensures FineAt(Current(s.history), writes, time, k) <==>
              && PreconditionHolds(Get(s.history, writes[k].op.path), writes, NextCommitTime(s, now), k)
              && ValidWrite(writes[k])
    {
      CurrentIsLatest(s.history, writes[k].op.path);
    }
  }

  /**
   The version of a document changes if and only if some write changes what is stored, and then
   its version and update time are those of the commit; the store's version goes up by one if
   and only if that happens anywhere.
   */
  lemma VersionsTellChanges(s: Store, writes: seq<Write>, own: Option<TxId>, now: int, p: Path)
    requires Commit(s, writes, own, now).1.Done?
    ensures var (s', o) := Commit(s, writes, own, now);
            var before, d := Get(s.history, p), Get(s'.history, p);
            var changed := exists k :: 0 <= k < |writes| && writes[k].op.path == p &&
                             ChangedBy(before, writes, o.time, k);
            && (!changed ==> d == before)
            && (changed && d.Some? ==> d.value.version == s.version + 1 == s'.version)
            && UpdateTimeOf(d) == UpdatedAfter(before, writes, p, o.time, |writes|)
    ensures var (s', o) := Commit(s, writes, own, now);
            s'.version == if exists k :: && 0 <= k < |writes|
                                         && ChangedBy(Get(s.history, writes[k].op.path), writes, o.time, k)
                          then s.version + 1 else s.version
  {
    hide Commit, StageAll, Current, ChangedBy, Get, UpdatedAfter;
    var (s', o) := Commit(s, writes, own, now);
    PublishedIsStaged(s, writes, own, now, p);
    assert writes[..|writes|] == writes;
    var stage := StageAll(Current(s.history), writes, o.time, s.version + 1).value;
    forall q ensures && Lookup(Current(s.history), q) == Get(s.history, q)
                     && Told(Current(s.history), stage, writes, o.time, s.version + 1, q, |writes|)
    {
      CurrentIsLatest(s.history, q);
      StageIsTold(Current(s.history), writes, o.time, s.version + 1, q, |writes|);
    }
    if k :| 0 <= k < |writes| && ChangedBy(Get(s.history, writes[k].op.path), writes, o.time, k) {
      assert Told(Current(s.history), stage, writes, o.time, s.version + 1, writes[k].op.path, |writes|);
      assert Changes(stage, writes[k].op.path);
    }
    if AnyChange(stage) {
      var q :| q in stage && stage[q].changed;
      assert Told(Current(s.history), stage, writes, o.time, s.version + 1, q, |writes|);
    }
  }
}
