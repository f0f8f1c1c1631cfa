/**
 What an approval of a session-v2 receipt implies for every row and every round, and that the
 comparison does not tell the two targets apart.
 */
module SessionApproval {
  import opened Common
  import opened Json
  import opened SessionContract
  import opened SessionReceipt

  function Rows(receipt: Json, target: string): seq<Json> {
    var cases := Get(Get(receipt, target), "cases");
    if cases.Arr? then cases.a else []
  }

  // ----- What the comparison looks at -----

  /** The two rows say the same: outcome and error, and those of the lookup of an issued token. */
  predicate RowsAgree(local: Json, production: Json) {
    && Same(Get(Get(local, "response"), "outcome"), Get(Get(production, "response"), "outcome"))
    && Same(Get(Get(local, "response"), "error"), Get(Get(production, "response"), "error"))
    && (|| (Get(local, "followup").Null? && Get(production, "followup").Null?)
        || (&& !Get(local, "followup").Null? && !Get(production, "followup").Null?
            && Same(Get(Get(local, "followup"), "outcome"), Get(Get(production, "followup"), "outcome"))
            && Same(Get(Get(local, "followup"), "error"), Get(Get(production, "followup"), "error"))))
  }

  /** Each verdict by the rows themselves. */
  lemma ComparisonIff(local: Json, production: Json, controls: bool)
    ensures var fair := controls && Get(local, "quality") == Str("observed") &&
            Get(production, "quality") == Str("observed");
            && (Comparison(local, production, controls) == Inconclusive <==> !fair)
            && (Comparison(local, production, controls) == SameResult <==> fair && RowsAgree(local, production))
            && (Comparison(local, production, controls) == Different <==> fair && !RowsAgree(local, production))
  {
  }

  /** Every row of the report with one of these ids is observed. */
  predicate ControlsObserved(report: Json, ids: set<string>) {
    && Get(report, "cases").Arr?
    && forall i :: 0 <= i < |Get(report, "cases").a| ==>
         forall id :: id in ids && Get(Get(report, "cases").a[i], "id") == Str(id) ==>
           Get(Get(report, "cases").a[i], "quality") == Str("observed")
  }

  /** The ids of the rows that a sample at this offset is judged with. */
  function ControlIds(offset: string): set<string> {
    {"changed-id@" + offset, "changed-refresh@" + offset, "new-password-signin", "new-password-lookup",
     "malformed-refresh", "unknown-refresh"}
  }

  function SampleIds(offset: string): set<string> {
    {"a-id@" + offset, "a-refresh@" + offset, "b-id@" + offset, "b-refresh@" + offset, "changed-id@" + offset,
     "changed-refresh@" + offset}
  }

  lemma SampleText(lane: Lane, round: nat)
    requires round < 3
    ensures Text(Sample(lane, round)) == LaneText(lane) + "@" + OffsetText(round)
    ensures Text(Sample(lane, round))[|LaneText(lane)|] == '@' && '@' !in LaneText(lane)
    ensures OffsetText(round) == Text(Sample(lane, round))[|LaneText(lane)| + 1..]
  {
  }

  lemma SampleTextsDiffer(l: Lane, r: nat, m: Lane, q: nat)
    requires r < 3 && q < 3 && Text(Sample(l, r)) == Text(Sample(m, q))
    ensures r == q
  {
    hide Text, LaneText;
    SampleText(l, r);
    SampleText(m, q);
    var t := Text(Sample(l, r));
    assert forall i :: 0 <= i < |LaneText(l)| ==> t[i] == LaneText(l)[i];
    assert forall i :: 0 <= i < |LaneText(m)| ==> t[i] == LaneText(m)[i];
    assert OffsetText(r) == OffsetText(q);
    assert OffsetText(1)[0] == '1' && OffsetText(2)[0] == '3';
  }

  /** A sample's name before the offset. */
  function LanePrefix(lane: Lane): string {
    match lane
    case AId => "a-id@"
    case ARefresh => "a-refresh@"
    case BId => "b-id@"
    case BRefresh => "b-refresh@"
    case ChangedId => "changed-id@"
    case ChangedRefresh => "changed-refresh@"
  }

  lemma NameIs(lane: Lane, round: nat)
    ensures Text(Sample(lane, round)) == LanePrefix(lane) + OffsetText(round)
  {
    assert LaneText(lane) + "@" == LanePrefix(lane);
    assert LaneText(lane) + "@" + OffsetText(round) == LanePrefix(lane) + OffsetText(round);
  }

  lemma RoundIds(round: nat)
    ensures RoundControls(round) == ControlIds(OffsetText(round))
    ensures forall id :: InRound(Str(id), round) <==> id in SampleIds(OffsetText(round))
  {
    hide OffsetText, LaneText;
    NameIs(AId, round);
    NameIs(ARefresh, round);
    NameIs(BId, round);
    NameIs(BRefresh, round);
    NameIs(ChangedId, round);
    NameIs(ChangedRefresh, round);
    assert Text(NewPasswordSignin) == "new-password-signin" && Text(NewPasswordLookup) == "new-password-lookup";
    assert Text(MalformedRefresh) == "malformed-refresh" && Text(UnknownRefresh) == "unknown-refresh";
    hide Text;
  }

  lemma SampleIff(id: string, round: nat)
    ensures id in SampleIds(OffsetText(round)) <==> exists lane :: id == Text(Sample(lane, round))
  {
    hide OffsetText, Text;
    forall lane: Lane ensures Text(Sample(lane, round)) == LanePrefix(lane) + OffsetText(round) { NameIs(lane, round); }
    if id in SampleIds(OffsetText(round)) {
      assert exists lane :: id == LanePrefix(lane) + OffsetText(round) by {
        assert LanePrefix(AId) == "a-id@" && LanePrefix(ARefresh) == "a-refresh@" && LanePrefix(BId) == "b-id@";
        assert LanePrefix(BRefresh) == "b-refresh@" && LanePrefix(ChangedId) == "changed-id@";
        assert LanePrefix(ChangedRefresh) == "changed-refresh@";
      }
    }
  }

  lemma OneRound(id: string, r: nat, q: nat)
    requires r < 3 && q < 3 && id in SampleIds(OffsetText(r)) && id in SampleIds(OffsetText(q))
    ensures r == q
  {
    hide Text, SampleIds;
    SampleIff(id, r);
    SampleIff(id, q);
    var l: Lane :| id == Text(Sample(l, r));
    var m: Lane :| id == Text(Sample(m, q));
    SampleTextsDiffer(l, r, m, q);
  }

  lemma RoundIff(id: string, round: nat)
    requires round < 3
    ensures RoundOf(Str(id)) == Some(round) <==> id in SampleIds(OffsetText(round))
  {
    hide Text, SampleIds, InRound, RoundControls, ControlIds;
    RoundIds(0);
    RoundIds(1);
    RoundIds(2);
    forall r: nat, q: nat | r < 3 && q < 3 && id in SampleIds(OffsetText(r)) && id in SampleIds(OffsetText(q))
      ensures r == q
    {
      OneRound(id, r, q);
    }
  }

  lemma ObservedIs(report: Json, ids: set<string>)
    ensures RowsObserved(report, ids) <==> ControlsObserved(report, ids)
  {
    if ControlsObserved(report, ids) {
      forall i | 0 <= i < |Get(report, "cases").a|
        ensures var row := Get(report, "cases").a[i];
                Get(row, "id").Str? && Get(row, "id").s in ids ==> Get(row, "quality") == OBSERVED
      {
        var row := Get(report, "cases").a[i];
        if Get(row, "id").Str? && Get(row, "id").s in ids { assert Get(row, "id") == Str(Get(row, "id").s); }
      }
    }
  }

  /**
   Which rows may be compared: a sample if and only if the six controls of its offset are
   observed on both targets, any other row if and only if both reports are observed.
   */
  lemma ControlledIff(value: Json, id: string)
    ensures var local, production := Get(value, "local"), Get(value, "production");
            && (forall offset :: offset in {"0", "10000", "30000"} && id in SampleIds(offset) ==>
                  (Controlled(value, Str(id)) <==>
                     ControlsObserved(local, ControlIds(offset)) && ControlsObserved(production, ControlIds(offset))))
            && ((forall offset :: offset in {"0", "10000", "30000"} ==> id !in SampleIds(offset)) ==>
                  (Controlled(value, Str(id)) <==>
                     Get(local, "status") == Str("observed") && Get(production, "status") == Str("observed")))
  {
    hide SampleIds, ControlIds, RoundControls, InRound, RowsObserved, ControlsObserved, Text;
    var local, production := Get(value, "local"), Get(value, "production");
    assert OffsetText(0) == "0" && OffsetText(1) == "10000" && OffsetText(2) == "30000";
    forall round: nat | round < 3
      ensures RoundControls(round) == ControlIds(OffsetText(round))
      ensures RoundOf(Str(id)) == Some(round) <==> id in SampleIds(OffsetText(round))
      ensures RowsObserved(local, RoundControls(round)) <==> ControlsObserved(local, RoundControls(round))
      ensures RowsObserved(production, RoundControls(round)) <==> ControlsObserved(production, RoundControls(round))
    {
      RoundIds(round);
      RoundIff(id, round);
      ObservedIs(local, RoundControls(round));
      ObservedIs(production, RoundControls(round));
    }
  }

  // ----- The acceptance loop -----

  /** Every pair of rows may be compared, is observed, and says the same. */
  predicate Agreement(receipt: Json) {
    && |Rows(receipt, "local")| == |Rows(receipt, "production")|
    && forall i :: 0 <= i < |Rows(receipt, "local")| ==>
         PairAgrees(receipt, Rows(receipt, "local")[i], Rows(receipt, "production")[i])
  }

  predicate PairAgrees(receipt: Json, local: Json, production: Json) {
    && Controlled(receipt, Get(local, "id"))
    && Get(local, "quality") == Str("observed") && Get(production, "quality") == Str("observed")
    && RowsAgree(local, production)
  }

  /** What the recorded decision says, field by field. */
  datatype Decision = Decision(subject: string, commit: string, scope: string, reviewer: string, date: string)

  function Expected(d: Decision): Json {
    Obj(map["schemaVersion" := Int(1), "subjectSha256" := Str(d.subject), "sourceCommit" := Str(d.commit),
            "scope" := Str(d.scope), "cases" := CaseNames(), "reviewer" := Str(d.reviewer),
            "reviewedAt" := Str(d.date), "decision" := Str("approve")])
  }

  predicate Approves(f: Foreign, d: Decision, approval: Json, receipt: Json, valid: bool) {
    f.digest(approval) == f.digest(Expected(d)) && f.digest(receipt) == d.subject && valid && Agreement(receipt)
  }

  /**
   The acceptance loop: it stops at the first row that does not match. `valid` is the answer of
   the validator it was given, strict or frozen.
   */
  method Accept(f: Foreign, d: Decision, approval: Json, receipt: Json, valid: bool) returns (ok: bool)
    ensures ok <==> Approves(f, d, approval, receipt, valid)
  {
    hide Expected, Controlled, Comparison, RowsAgree;
    if f.digest(approval) != f.digest(Expected(d)) || f.digest(receipt) != d.subject || !valid { return false; }
    var locals, productions := Rows(receipt, "local"), Rows(receipt, "production");
    if |locals| != |productions| { return false; }
    var i := 0;
    while i < |locals|
      invariant 0 <= i <= |locals|
      invariant forall k :: 0 <= k < i ==> PairAgrees(receipt, locals[k], productions[k])
    {
      var controls := Controlled(receipt, Get(locals[i], "id"));
      ComparisonIff(locals[i], productions[i], controls);
      if Comparison(locals[i], productions[i], controls) != SameResult { return false; }
      i := i + 1;
    }
    ok := true;
  }

  /** What an accepted approval says, where its digest is nobody else's. */
  lemma ApprovalSays(f: Foreign, d: Decision, approval: Json, receipt: Json, valid: bool)
    requires Approves(f, d, approval, receipt, valid)
    requires forall x :: f.digest(x) == f.digest(approval) ==> x == approval
    ensures Keys(approval,
                 {"schemaVersion", "subjectSha256", "sourceCommit", "scope", "cases", "reviewer", "reviewedAt",
                            "decision"})
    ensures Get(approval, "schemaVersion") == Int(1) && Get(approval, "decision") == Str("approve")
    ensures Get(approval, "subjectSha256") == Str(f.digest(receipt)) && Get(approval, "sourceCommit") == Str(d.commit)
    ensures Get(approval, "scope") == Str(d.scope) && Get(approval, "reviewer") == Str(d.reviewer)
    ensures Get(approval, "reviewedAt") == Str(d.date) && Get(approval, "cases").Arr? &&
            |Get(approval, "cases").a| == 34
    ensures forall i :: 0 <= i < 34 ==> Get(approval, "cases").a[i] == Str(Text(CASES[i]))
  {
    hide Text, Agreement;
    assert approval == Expected(d);
    assert |CASES| == 34;
  }

  // ----- Every row is observed -----

  lemma ValidatedRows(env: Env, receipt: Json, target: string, i: nat)
    requires Validates(env, receipt) && (target == "local" || target == "production") && i < |CASES|
    ensures |Rows(receipt, target)| == |CASES| && ValidCase(Rows(receipt, target)[i], CASES[i])
    ensures Complete(Get(receipt, target)) && ValidRows(Get(receipt, target)) && ValidTiming(Get(receipt, target))
  {
    assert ValidRows(Get(receipt, target));
  }

  /** The first case is no sample, so its comparison asks for both reports to be observed. */
  lemma SignupIsNoSample()
    ensures RoundOf(Str(Text(Signup))).None?
  {
    var t := Text(Signup);
    forall lane: Lane, round: nat ensures Text(Sample(lane, round)) != t {
      var s := Text(Sample(lane, round));
      assert s[|LaneText(lane)|] == '@' && |LaneText(lane)| < |s|;
      assert t == "signup" && |t| == 6;
    }
  }

  lemma ObservedReport(report: Json, i: nat)
    requires Complete(report) && Get(report, "status") == OBSERVED && i < |CASES|
    ensures Get(Get(report, "cases").a[i], "quality") == OBSERVED
  {
  }

  predicate BothObserved(receipt: Json) {
    Get(Get(receipt, "local"), "status") == OBSERVED && Get(Get(receipt, "production"), "status") == OBSERVED
  }

  predicate AllRowsAgree(receipt: Json) {
    && |Rows(receipt, "local")| == |Rows(receipt, "production")| == |CASES|
    && forall i :: 0 <= i < |CASES| ==>
         RowsAgree(Rows(receipt, "local")[i], Rows(receipt, "production")[i])
  }

  lemma MatchingIsObserved(env: Env, receipt: Json)
    requires Validates(env, receipt) && Agreement(receipt)
    ensures BothObserved(receipt) && AllRowsAgree(receipt)
  {
    hide Validates, ValidCase, Complete, ValidRows, ValidTiming, RowsAgree, RoundOf, RowsObserved, RoundControls, Text;
    ValidatedRows(env, receipt, "local", 0);
    ValidatedRows(env, receipt, "production", 0);
    RowIsItsCase(Rows(receipt, "local")[0], CASES[0]);
    SignupIsNoSample();
    assert PairAgrees(receipt, Rows(receipt, "local")[0], Rows(receipt, "production")[0]);
  }

  lemma ObservedIsMatching(env: Env, receipt: Json)
    requires Validates(env, receipt) && BothObserved(receipt) && AllRowsAgree(receipt)
    ensures Agreement(receipt)
  {
    hide Validates, Complete, ValidCase, Controlled, RowsAgree, ValidRows, ValidTiming;
    ValidatedRows(env, receipt, "local", 0);
    ValidatedRows(env, receipt, "production", 0);
    ObservedMeansControlled(env, receipt);
    forall i | 0 <= i < |CASES| ensures PairAgrees(receipt, Rows(receipt, "local")[i], Rows(receipt, "production")[i]) {
      ObservedReport(Get(receipt, "local"), i);
      ObservedReport(Get(receipt, "production"), i);
      assert Controlled(receipt, Get(Rows(receipt, "local")[i], "id"));
    }
  }

  /**
   The approval's comparisons all match if and only if both reports are observed throughout
   and the two rows of every case have the same outcome, error and follow-up.
   */
  lemma ApprovalIsAgreement(env: Env, receipt: Json)
    requires Validates(env, receipt)
    ensures Agreement(receipt) <==> BothObserved(receipt) && AllRowsAgree(receipt)
  {
    hide Validates, Agreement, AllRowsAgree;
    if Agreement(receipt) { MatchingIsObserved(env, receipt); }
    if BothObserved(receipt) && AllRowsAgree(receipt) { ObservedIsMatching(env, receipt); }
  }

  lemma ObservedRows(report: Json, names: set<string>)
    requires Complete(report) && Get(report, "status") == OBSERVED
    ensures RowsObserved(report, names)
  {
    hide ValidRows, CleanedUp;
    assert AllObserved(report);
  }

  lemma ObservedMeansControlled(env: Env, receipt: Json)
    requires Validates(env, receipt)
    requires Get(Get(receipt, "local"), "status") == OBSERVED && Get(Get(receipt, "production"), "status") == OBSERVED
    ensures forall name :: Controlled(receipt, name)
  {
    hide Validates, Complete, RowsObserved, RoundControls, RoundOf, ValidCase, ValidRows, ValidTiming;
    ValidatedRows(env, receipt, "local", 0);
    ValidatedRows(env, receipt, "production", 0);
    forall name ensures Controlled(receipt, name) {
      if RoundOf(name).Some? {
        ObservedRows(Get(receipt, "local"), RoundControls(RoundOf(name).value));
        ObservedRows(Get(receipt, "production"), RoundControls(RoundOf(name).value));
      }
    }
  }

  // ----- What an approval implies -----

  /** When a sample of the round is to start, in milliseconds after the change. */
  function StartOf(round: nat): int {
    match round
    case 0 => 0
    case 1 => 10000
    case _ => 30000
  }

  /** A sample is on time: it starts within two seconds of its target and ends by the deadline. */
  predicate OnTime(row: Json, round: nat) {
    && Get(row, "startMs").Int? && Get(row, "endMs").Int?
    && StartOf(round) <= Get(row, "startMs").n <= StartOf(round) + 2000
    && Get(row, "endMs").n <= 45000
  }

  function OutcomeOf(row: Json): Json {
    Get(Get(row, "response"), "outcome")
  }

  function FollowupOf(row: Json): Json {
    Get(Get(row, "followup"), "outcome")
  }

  /**
   A sample is answered: the old tokens either way, with the lookup of a refreshed one answered
   too, and the tokens of the change, with their lookup, accepted.
   */
  predicate Answered(row: Json, lane: Lane) {
    match lane
    case AId => OutcomeOf(row) in {Str("accepted"), Str("auth-rejected")}
    case BId => OutcomeOf(row) in {Str("accepted"), Str("auth-rejected")}
    case ChangedId => OutcomeOf(row) == Str("accepted")
    case ChangedRefresh => OutcomeOf(row) == Str("accepted") && FollowupOf(row) == Str("accepted")
    case _ =>
      || OutcomeOf(row) == Str("auth-rejected")
      || (OutcomeOf(row) == Str("accepted") && FollowupOf(row) in {Str("accepted"), Str("auth-rejected")})
  }

  /** A row is a positive or negative answer of the service, never a failure to ask. */
  predicate Conclusive(row: Json, c: Case) {
    match c
    case Sample(lane, round) => Answered(row, lane) && OnTime(row, round)
    case MalformedRefresh =>
      && Get(Get(row, "response"), "httpStatus") == Int(400) && OutcomeOf(row) == Str("auth-rejected")
      && Get(Get(row, "response"), "error") == Str("INVALID_REFRESH_TOKEN")
    case UnknownRefresh =>
      && Get(Get(row, "response"), "httpStatus") == Int(400) && OutcomeOf(row) == Str("auth-rejected")
      && Get(Get(row, "response"), "error") == Str("INVALID_REFRESH_TOKEN")
    case ARefreshBaseline1 => OutcomeOf(row) == Str("accepted") && FollowupOf(row) == Str("accepted")
    case ARefreshBaseline2 => OutcomeOf(row) == Str("accepted") && FollowupOf(row) == Str("accepted")
    case BRefreshBaseline1 => OutcomeOf(row) == Str("accepted") && FollowupOf(row) == Str("accepted")
    case BRefreshBaseline2 => OutcomeOf(row) == Str("accepted") && FollowupOf(row) == Str("accepted")
    case _ => OutcomeOf(row) == Str("accepted")
  }

  /** A valid row is observed if and only if it is conclusive, and late if and only if it is only not on time. */
  lemma ObservedIsConclusive(row: Json, c: Case)
    requires ValidCase(row, c)
    ensures Get(row, "quality") == Str("observed") <==> Conclusive(row, c)
    ensures Get(row, "quality") == Str("late") <==> c.Sample? && Answered(row, c.lane) && !OnTime(row, c.round)
    ensures Get(row, "quality") in {Str("observed"), Str("late"), Str("inconclusive")}
  {
    hide ValidResponse, ValidSampling, ValidFollowup, Text;
    FollowupIs(row, c);
  }

  lemma FollowupIs(row: Json, c: Case)
    requires ValidCase(row, c)
    ensures FollowupOf(row) == if row.o["followup"].Null? then Null else Get(row.o["followup"], "outcome")
    ensures OutcomeOf(row) == Get(row.o["response"], "outcome")
  {
    hide ValidResponse, ValidSampling, ValidFollowup, ExpectedQuality, Text;
  }

  /** What a valid response with an outcome says. */
  lemma OutcomeIff(row: Json, kind: Kind)
    requires ValidResponse(row, kind)
    ensures var status, error, checks := Get(row, "httpStatus"), Get(row, "error"), Get(row, "checks");
            && checks.Obj?
            && (Get(row, "outcome") == Str("accepted") <==>
                  status == Int(200) && forall k :: k in checks.o ==> checks.o[k] == Bool(true))
            && (Get(row, "outcome") == Str("auth-rejected") <==>
                  status == Int(400) && error in {Str("TOKEN_EXPIRED"), Str("INVALID_ID_TOKEN"),
                                                  Str("INVALID_REFRESH_TOKEN"), Str("USER_NOT_FOUND"),
                                                  Str("USER_DISABLED"), Str("INVALID_GRANT")})
            && (Get(row, "outcome") in {Str("transport-failure"), Str("not-sampled")} <==> status == Null)
    ensures Get(row, "outcome") == Str("accepted") && (kind == Token || kind == Refresh) ==>
              && Get(row, "error") == Null && Get(row, "expirySeconds") == Str("3600")
              && var time := Get(row, "tokenTime");
              Get(time, "iat").Int? && Get(time, "authTime").Int? && 0 <= Get(time, "authTime").n <= Get(time, "iat").n
  {
    var checks := Get(row, "checks");
    if (kind == Token || kind == Refresh) && Get(row, "outcome") == Str("accepted") {
      assert checks.o["noError"] == Bool(true) && checks.o["tokenTimeValid"] == Bool(true);
      assert checks.o["expiryMatchesOneHour"] == Bool(true);
    }
  }

  lemma {:induction false} LatestBounds(rows: seq<Json>, i: nat)
    requires i < |rows| && Get(Get(Get(rows[i], "response"), "tokenTime"), "iat").Int?
    ensures LatestIat(rows).Some? && Get(Get(Get(rows[i], "response"), "tokenTime"), "iat").n <= LatestIat(rows).value
  {
    if i < |rows| - 1 { LatestBounds(rows[..|rows| - 1], i); }
  }

  /** The latest issue time is one of them. */
  lemma {:induction false} LatestIsOne(rows: seq<Json>)
    requires LatestIat(rows).Some?
    ensures exists i :: && 0 <= i < |rows| && Get(Get(Get(rows[i], "response"), "tokenTime"), "iat").Int?
                        && Get(Get(Get(rows[i], "response"), "tokenTime"), "iat").n == LatestIat(rows).value
  {
    var n := |rows| - 1;
    var iat := Get(Get(Get(rows[n], "response"), "tokenTime"), "iat");
    if !iat.Int? || iat.n != LatestIat(rows).value {
      LatestIsOne(rows[..n]);
      var i :| && 0 <= i < n && Get(Get(Get(rows[..n][i], "response"), "tokenTime"), "iat").Int?
               && Get(Get(Get(rows[..n][i], "response"), "tokenTime"), "iat").n == LatestIat(rows).value;
      assert rows[i] == rows[..n][i];
    }
  }

  /** Every token issued before the change is strictly older than the one the change issued. */
  lemma IssuedBeforeChange(report: Json, i: nat)
    requires ValidRows(report) && ValidTiming(report) && i < 9
    ensures var rows := Get(report, "cases").a;
            var old_, new_ := Get(Get(Get(rows[i], "response"), "tokenTime"), "iat"),
              Get(Get(Get(rows[9], "response"), "tokenTime"), "iat");
            old_.Int? ==> new_.Int? && old_.n < new_.n
  {
    var rows := Get(report, "cases").a;
    if Get(Get(Get(rows[i], "response"), "tokenTime"), "iat").Int? {
      assert rows[..9][i] == rows[i];
      LatestBounds(rows[..9], i);
    }
  }

  /**
   An accepted approval means, for each of the thirty-four cases: both rows are observed and
   conclusive, and say the same; for each round, every control row is observed on both
   targets; and on both targets every token from before the change is older than the changed one.
   */
  lemma ApprovalImplies(env: Env, d: Decision, approval: Json, receipt: Json, target: string, i: nat)
    requires Approves(env.f, d, approval, receipt, Validates(env, receipt))
    requires (target == "local" || target == "production") && i < |CASES|
    ensures |Rows(receipt, "local")| == |Rows(receipt, "production")| == |CASES|
    ensures Get(Rows(receipt, target)[i], "id") == Str(Text(CASES[i]))
    ensures Get(Rows(receipt, target)[i], "quality") == OBSERVED && Conclusive(Rows(receipt, target)[i], CASES[i])
    ensures RowsAgree(Rows(receipt, "local")[i], Rows(receipt, "production")[i])
    ensures forall offset :: offset in {"0", "10000", "30000"} ==>
              ControlsObserved(Get(receipt, target), ControlIds(offset))
    ensures i < 9 && Get(Get(Get(Rows(receipt, target)[i], "response"), "tokenTime"), "iat").Int? ==>
              var changed := Get(Get(Get(Rows(receipt, target)[9], "response"), "tokenTime"), "iat");
              changed.Int? && Get(Get(Get(Rows(receipt, target)[i], "response"), "tokenTime"), "iat").n < changed.n
  {
    hide Validates, Complete, ValidRows, ValidTiming, ValidCase, Agreement, Conclusive, RowsObserved, ControlsObserved;
    hide ControlIds, RowsAgree;
    ApprovalIsAgreement(env, receipt);
    ValidatedRows(env, receipt, "local", i);
    ValidatedRows(env, receipt, "production", i);
    var report := Get(receipt, target);
    ObservedReport(report, i);
    RowIsItsCase(Rows(receipt, target)[i], CASES[i]);
    ObservedIsConclusive(Rows(receipt, target)[i], CASES[i]);
    forall offset | offset in {"0", "10000", "30000"} ensures ControlsObserved(report, ControlIds(offset)) {
      ObservedRows(report, ControlIds(offset));
      ObservedIs(report, ControlIds(offset));
    }
    if i < 9 { IssuedBeforeChange(report, i); }
  }

  lemma RowIsItsCase(row: Json, c: Case)
    requires ValidCase(row, c)
    ensures Get(row, "id") == Str(Text(c))
  {
  }

  // ----- The two targets are alike to the comparison -----

  lemma SignatureSymmetric(x: Signature, y: Signature)
    ensures SameSignature(x, y) == SameSignature(y, x)
  {
    SameSymmetric(x.outcome, y.outcome);
    SameSymmetric(x.error, y.error);
    if x.follow.Some? && y.follow.Some? {
      SameSymmetric(x.follow.value.0, y.follow.value.0);
      SameSymmetric(x.follow.value.1, y.follow.value.1);
    }
  }

  function Swapped(value: Json): Json {
    if value.Obj? then Obj(value.o["local" := Get(value, "production")]["production" := Get(value, "local")]) else value
  }

  /** Swapping the two targets changes no verdict. */
  lemma VerdictIsSymmetric(value: Json, local: Json, production: Json, name: Json)
    requires Has(value, "local") && Has(value, "production")
    ensures Controlled(Swapped(value), name) == Controlled(value, name)
    ensures Comparison(local, production, Controlled(value, name)) ==
            Comparison(production, local, Controlled(Swapped(value), name))
  {
    hide Same, RowsObserved, RoundOf, RoundControls, SignatureOf, SameSignature;
    SignatureSymmetric(SignatureOf(local), SignatureOf(production));
  }
}
