/**
 The strict session-v2 validator as the code runs it (tools/publish-auth-session-v2.py and
 tools/auth-session-v2/session_v2_contract.py): requirement after requirement on the receipt's own
 fields, each method proved to answer what the contract says.
 */
module SessionValidator {
  import opened Common
  import opened Texts
  import opened Json
  import opened SessionContract
  import opened SessionReceipt

  // ----- One response -----

  method WantedChecks(kind: Kind) returns (checks: set<string>)
    ensures checks == ChecksFor(kind)
  {
    if kind == Token || kind == Refresh {
      checks := {"noError", "idTokenPresent", "refreshTokenPresent", "uidMatches", "expiryIsPositiveInteger",
                 "expiryMatchesOneHour", "tokenTimeValid"};
      checks := checks + if kind == Refresh then {"bearerType"} else {"emailMatches"};
    } else if kind == SessionContract.Lookup {
      checks := {"noError", "oneUser", "uidMatches", "emailMatches"};
    } else if kind == Absence {
      checks := {"uidAbsent", "emailAbsent"};
    } else {
      checks := {"noError"};
    }
  }

  method ExpectedOutcome(status: int, checks: map<string, Json>, error: Json) returns (outcome: string)
    ensures Str(outcome) == Classify(Int(status), Obj(checks), error)
  {
    if status == 200 && forall k :: k in checks ==> checks[k] == Bool(true) {
      return "accepted";
    }
    if status == 400 && error.Str? &&
       error.s in {"TOKEN_EXPIRED", "INVALID_ID_TOKEN", "INVALID_REFRESH_TOKEN", "USER_NOT_FOUND", "USER_DISABLED",
                   "INVALID_GRANT"} {
      return "auth-rejected";
    }
    outcome := "unexpected";
  }

  method CheckOutcome(row: Json) returns (ok: bool)
    requires row.Obj? && {"httpStatus", "outcome", "error", "checks"} <= row.o.Keys
    ensures ok <==> ValidOutcome(row)
  {
    hide Classify;
    var status, outcome, error, checks := row.o["httpStatus"], row.o["outcome"], row.o["error"], row.o["checks"];
    if !outcome.Str? ||
       outcome.s !in {"accepted", "auth-rejected", "unexpected", "transport-failure", "not-sampled"} { return false; }
    if !error.Null? &&
       !(error.Str? && error.s in {"TOKEN_EXPIRED", "INVALID_ID_TOKEN", "INVALID_REFRESH_TOKEN", "USER_NOT_FOUND",
                                   "USER_DISABLED", "INVALID_GRANT", "OTHER"}) { return false; }
    if !checks.Obj? || exists k :: k in checks.o && !checks.o[k].Bool? { return false; }
    if outcome.s == "transport-failure" || outcome.s == "not-sampled" {
      if !status.Null? || !error.Null? || exists k :: k in checks.o && checks.o[k] != Bool(false) { return false; }
    } else {
      if !status.Int? || status.n < 100 || status.n > 599 { return false; }
      var expected := ExpectedOutcome(status.n, checks.o, error);
      if outcome.s != expected { return false; }
    }
    ok := !("noError" in checks.o && !status.Null?) || checks.o["noError"] == Bool(error.Null?);
  }

  method CheckTokens(row: Json) returns (ok: bool)
    requires row.Obj? && {"expirySeconds", "tokenTime", "checks"} <= row.o.Keys && row.o["checks"].Obj?
    requires {"expiryIsPositiveInteger", "expiryMatchesOneHour", "tokenTimeValid"} <= row.o["checks"].o.Keys
    ensures var seconds, time, checks := row.o["expirySeconds"], row.o["tokenTime"], row.o["checks"].o;
            ok <==> && (seconds.Null? || Expiry(seconds))
                    && checks["expiryIsPositiveInteger"] == Bool(!seconds.Null?)
                    && checks["expiryMatchesOneHour"] == Bool(seconds == Str("3600"))
                    && ValidTokenTime(time) && checks["tokenTimeValid"] == Bool(!time.Null?)
  {
    var seconds, time, checks := row.o["expirySeconds"], row.o["tokenTime"], row.o["checks"].o;
    if !seconds.Null? {
      if !seconds.Str? || |seconds.s| < 1 || |seconds.s| > 6 || seconds.s[0] == '0' { return false; }
      for i := 0 to |seconds.s|
        invariant forall k :: 0 <= k < i ==> '0' <= seconds.s[k] <= '9'
      {
        if seconds.s[i] < '0' || seconds.s[i] > '9' { return false; }
      }
    }
    if checks["expiryIsPositiveInteger"] != Bool(!seconds.Null?) { return false; }
    if checks["expiryMatchesOneHour"] != Bool(seconds == Str("3600")) { return false; }
    if !time.Null? {
      if !time.Obj? || time.o.Keys != {"iat", "authTime"} { return false; }
      var issued, authenticated := time.o["iat"], time.o["authTime"];
      if !issued.Int? || issued.n < 0 || issued.n > 32503680000 { return false; }
      if !authenticated.Int? || authenticated.n < 0 || authenticated.n > 32503680000 { return false; }
      if authenticated.n > issued.n { return false; }
    }
    ok := checks["tokenTimeValid"] == Bool(!time.Null?);
  }

  method CheckResponse(row: Json, kind: Kind) returns (ok: bool)
    ensures ok <==> ValidResponse(row, kind)
  {
    hide ValidOutcome, ValidTokenTime, Expiry;
    var keys := {"httpStatus", "outcome", "error", "checks"};
    if kind == Token || kind == Refresh {
      keys := keys + {"expirySeconds", "tokenTime"};
    } else if kind == SessionContract.Lookup {
      keys := keys + {"validSince"};
    }
    if !row.Obj? || row.o.Keys != keys { return false; }
    ok := CheckOutcome(row);
    if !ok { return false; }
    var wanted := WantedChecks(kind);
    assert row.o["checks"].Obj? by { ChecksAreObject(row); }
    if row.o["checks"].o.Keys != wanted { return false; }
    if kind == Token || kind == Refresh {
      ok := CheckTokens(row);
    }
    if ok && kind == SessionContract.Lookup {
      var since := row.o["validSince"];
      ok := since.Null? || (since.Int? && 0 <= since.n <= 32503680000);
    }
  }

  lemma ChecksAreObject(row: Json)
    requires row.Obj? && {"httpStatus", "outcome", "error", "checks"} <= row.o.Keys && ValidOutcome(row)
    ensures row.o["checks"].Obj?
  {
  }

  // ----- One row -----

  method SampleTarget(round: nat) returns (target: int)
    ensures target == Offset(round)
  {
    var offsets := [0, 10000, 30000];
    target := if round < 2 then offsets[round] else offsets[2];
  }

  method QualityOfSample(primary: Json, follow: Json, start: int, end: int, target: int, lane: Lane) returns (q: string)
    ensures Str(q) == SampleQuality(primary, follow, start, end, target, lane)
  {
    var outcome := Get(primary, "outcome");
    if outcome != Str("accepted") && outcome != Str("auth-rejected") { return "inconclusive"; }
    if lane in {ARefresh, BRefresh, ChangedRefresh} && outcome == Str("accepted") {
      if follow.Null? || Get(follow, "outcome") !in {Str("accepted"), Str("auth-rejected")} { return "inconclusive"; }
    }
    if lane in {ChangedId, ChangedRefresh} {
      if outcome != Str("accepted") { return "inconclusive"; }
      if lane == ChangedRefresh &&
        (follow.Null? || Get(follow, "outcome") != Str("accepted")) { return "inconclusive"; }
    }
    if start < target || start - target > 2000 || end > 45000 { return "late"; }
    q := "observed";
  }

  method QualityOf(row: Json, c: Case) returns (q: string)
    requires row.Obj? && ROW <= row.o.Keys && row.o["startMs"].Int? && row.o["endMs"].Int?
    ensures Str(q) == ExpectedQuality(row, c)
  {
    hide SampleQuality;
    var response, follow := row.o["response"], row.o["followup"];
    if c.Sample? {
      var target := SampleTarget(c.round);
      q := QualityOfSample(response, follow, row.o["startMs"].n, row.o["endMs"].n, target, c.lane);
      return;
    }
    var fine: bool;
    if c == MalformedRefresh || c == UnknownRefresh {
      fine := Get(response, "httpStatus") == Int(400) && Get(response, "outcome") == Str("auth-rejected") &&
        Get(response, "error") == Str("INVALID_REFRESH_TOKEN");
    } else {
      fine := Get(response, "outcome") == Str("accepted") &&
        (KindOf(c) != Refresh || Get(follow, "outcome") == Str("accepted"));
    }
    q := if fine then "observed" else "inconclusive";
  }

  method CheckFollowup(row: Json, kind: Kind) returns (ok: bool)
    requires row.Obj? && ROW <= row.o.Keys && ValidInterval(row)
    ensures ok <==> ValidFollowup(row, kind)
  {
    hide ValidResponse;
    var follow, from, to := row.o["followup"], row.o["followupStartMs"], row.o["followupEndMs"];
    var primary, end := row.o["primaryEndMs"].n, row.o["endMs"].n;
    if follow.Null? { return from.Null? && to.Null? && primary == end; }
    if kind != Refresh || Get(row.o["response"], "outcome") != Str("accepted") { return false; }
    ok := CheckResponse(follow, SessionContract.Lookup);
    if !ok { return false; }
    if !from.Int? || from.n < primary || from.n > end { return false; }
    if !to.Int? || to.n < from.n || to.n > end { return false; }
    ok := to.n == end;
  }

  method CheckSampling(row: Json, c: Case) returns (ok: bool)
    requires row.Obj? && ROW <= row.o.Keys && ValidInterval(row)
    ensures ok <==> ValidSampling(row, c)
  {
    if !c.Sample? { return true; }
    var start, follow, from := row.o["startMs"].n, row.o["followup"], row.o["followupStartMs"];
    var target := SampleTarget(c.round);
    if Get(row.o["response"], "outcome") != Str("not-sampled") {
      if start < 0 || start > 44999 || start < target { return false; }
    }
    if !follow.Null? && Get(follow, "outcome") != Str("not-sampled") {
      if !from.Int? || from.n < 0 || from.n > 44999 { return false; }
    }
    ok := true;
  }

  method CheckCase(row: Json, c: Case) returns (ok: bool)
    ensures ok <==> ValidCase(row, c)
  {
    hide ValidResponse, ValidFollowup, ValidSampling, ExpectedQuality, Text;
    if !row.Obj? || row.o.Keys != {"id", "response", "followup", "rotated", "startMs", "primaryEndMs", "endMs",
                                   "followupStartMs", "followupEndMs", "credentialUnchanged",
                                     "quality"} { return false; }
    if row.o["id"] != Str(Text(c)) || row.o["credentialUnchanged"] != Bool(true) { return false; }
    var start, primary, end := row.o["startMs"], row.o["primaryEndMs"], row.o["endMs"];
    if !start.Int? || start.n < 0 || start.n > 600000 { return false; }
    if !end.Int? || end.n < start.n || end.n > 600000 { return false; }
    if !primary.Int? || primary.n < start.n || primary.n > end.n { return false; }
    var kind := KindOf(c);
    ok := CheckResponse(row.o["response"], kind);
    if !ok { return false; }
    assert row.o["response"].Obj? &&
      "outcome" in row.o["response"].o by { ResponseHasOutcome(row.o["response"], kind); }
    ok := CheckFollowup(row, kind);
    if !ok { return false; }
    if kind == Refresh && Get(row.o["response"], "outcome") == Str("accepted") {
      if !row.o["rotated"].Bool? { return false; }
    } else {
      if !row.o["rotated"].Null? { return false; }
    }
    ok := CheckSampling(row, c);
    if !ok { return false; }
    var expected := QualityOf(row, c);
    ok := row.o["quality"] == Str(expected);
  }

  lemma ResponseHasOutcome(row: Json, kind: Kind)
    requires ValidResponse(row, kind)
    ensures row.Obj? && "outcome" in row.o
  {
  }

  method CheckRows(report: Json) returns (ok: bool)
    ensures ok <==> ValidRows(report)
  {
    hide ValidCase;
    var cases := Get(report, "cases");
    if !cases.Arr? || |cases.a| != |CASES| { return false; }
    for i := 0 to |CASES|
      invariant forall k :: 0 <= k < i ==> ValidCase(cases.a[k], CASES[k])
    {
      var fine := CheckCase(cases.a[i], CASES[i]);
      if !fine { return false; }
    }
    ok := true;
  }

  // ----- Timing -----

  method LatestIssued(rows: seq<Json>) returns (latest: Option<int>)
    ensures latest == LatestIat(rows)
  {
    latest := None;
    for i := 0 to |rows|
      invariant latest == LatestIat(rows[..i])
    {
      var time := Get(Get(rows[i], "response"), "tokenTime");
      var iat := Get(time, "iat");
      if iat.Int? && (latest.None? || latest.value < iat.n) { latest := Some(iat.n); }
      assert rows[..i + 1][..i] == rows[..i];
    }
    assert rows[..|rows|] == rows;
  }

  /** The fields of the timing, by themselves. */
  predicate TimingFields(timing: Json) {
    && Keys(timing, TIMING)
    && IsTrue(timing.o["sessionsSeparated"]) && IsTrue(timing.o["orderEstablished"])
    && Within(timing.o["issueGapMs"], 2000, BUDGET_MS) && Within(timing.o["preChangeWaitMs"], 3000, BUDGET_MS)
    && Within(timing.o["mutationStartMs"], 0, BUDGET_MS)
    && Within(timing.o["mutationEndMs"], timing.o["mutationStartMs"].n, BUDGET_MS)
  }

  method CheckTimingFields(timing: Json) returns (ok: bool)
    ensures ok <==> TimingFields(timing)
  {
    if !timing.Obj? || timing.o.Keys != {"sessionsSeparated", "issueGapMs", "preChangeWaitMs", "mutationStartMs",
                                         "mutationEndMs", "latestPreIssuedAt", "changedIssuedAt", "orderEstablished"} {
      return false;
    }
    if timing.o["sessionsSeparated"] != Bool(true) || timing.o["orderEstablished"] != Bool(true) { return false; }
    var gap, wait := timing.o["issueGapMs"], timing.o["preChangeWaitMs"];
    if !gap.Int? || gap.n < 2000 || gap.n > 600000 || !wait.Int? || wait.n < 3000 || wait.n > 600000 { return false; }
    var from, to := timing.o["mutationStartMs"], timing.o["mutationEndMs"];
    if !from.Int? || from.n < 0 || from.n > 600000 || !to.Int? || to.n < from.n || to.n > 600000 { return false; }
    ok := true;
  }

  /** What the timing says of the rows: the first ten are observed, and its instants are theirs. */
  predicate TimingOfRows(timing: Json, rows: seq<Json>)
    requires TimingFields(timing) && |rows| >= 10
  {
    var changedIat := Get(Get(Get(rows[9], "response"), "tokenTime"), "iat");
    && LatestIat(rows[..9]).Some?
    && (forall i :: 0 <= i < 10 ==> Get(rows[i], "quality") == OBSERVED)
    && Within(timing.o["latestPreIssuedAt"], 0, FAR_FUTURE)
    && timing.o["latestPreIssuedAt"].n == LatestIat(rows[..9]).value
    && Within(timing.o["changedIssuedAt"], 0, FAR_FUTURE) && changedIat.Int?
    && timing.o["changedIssuedAt"].n == changedIat.n
    && timing.o["changedIssuedAt"].n > LatestIat(rows[..9]).value
  }

  method CheckIssueTimes(timing: Json, rows: seq<Json>) returns (ok: bool)
    requires TimingFields(timing) && |rows| >= 10
    ensures ok <==> TimingOfRows(timing, rows)
  {
    hide LatestIat;
    var latest := LatestIssued(rows[..9]);
    if latest.None? { return false; }
    for i := 0 to 10
      invariant forall k :: 0 <= k < i ==> Get(rows[k], "quality") == OBSERVED
    {
      if Get(rows[i], "quality") != Str("observed") { return false; }
    }
    var before, after := timing.o["latestPreIssuedAt"], timing.o["changedIssuedAt"];
    var issued := Get(Get(Get(rows[9], "response"), "tokenTime"), "iat");
    if !before.Int? || before.n != latest.value || before.n < 0 || before.n > 32503680000 { return false; }
    if !after.Int? || after.n < 0 || after.n > 32503680000 || !issued.Int? || after.n != issued.n { return false; }
    ok := after.n > latest.value;
  }

  /** The instants of a valid row are there. */
  lemma RowInstants(report: Json, i: nat)
    requires ValidRows(report) && i < |CASES|
    ensures var row := Get(report, "cases").a[i];
            && row.Obj? && ROW <= row.o.Keys && row.o["startMs"].Int? && row.o["primaryEndMs"].Int? &&
              row.o["endMs"].Int?
  {
    assert ValidCase(Get(report, "cases").a[i], CASES[i]);
  }

  method CheckTiming(report: Json) returns (ok: bool)
    requires ValidRows(report)
    ensures ok <==> ValidTiming(report)
  {
    hide LatestIat, ValidCase;
    var timing, rows := Get(report, "timing"), Get(report, "cases").a;
    ok := CheckTimingFields(timing);
    if !ok { return false; }
    RowInstants(report, 1);
    RowInstants(report, 2);
    RowInstants(report, 8);
    RowInstants(report, 9);
    if timing.o["issueGapMs"].n != rows[2].o["startMs"].n - rows[1].o["primaryEndMs"].n { return false; }
    if timing.o["preChangeWaitMs"].n != rows[9].o["startMs"].n - rows[8].o["endMs"].n { return false; }
    ok := CheckIssueTimes(timing, rows);
    if !ok { return false; }
    if timing.o["mutationStartMs"].n != rows[9].o["startMs"].n { return false; }
    ok := timing.o["mutationEndMs"].n >= rows[9].o["endMs"].n;
  }

  // ----- The two reports -----

  method MatchesDate(j: Json) returns (ok: bool)
    ensures ok <==> Date(j)
  {
    if !j.Str? || j.s == "" { return false; }
    for i := 0 to |j.s|
      invariant forall k :: 0 <= k < i ==> DateChar(j.s[k])
    {
      if !('0' <= j.s[i] <= '9') && j.s[i] !in {'T', ':', '.', '+', '-'} { return false; }
    }
    ok := true;
  }

  method MatchesHex(j: Json, n: nat) returns (ok: bool)
    ensures ok <==> Hex(j, n)
  {
    if !j.Str? || |j.s| != n { return false; }
    for i := 0 to |j.s|
      invariant forall k :: 0 <= k < i ==> HexDigit(j.s[k])
    {
      if !('0' <= j.s[i] <= '9') && !('a' <= j.s[i] <= 'f') { return false; }
    }
    ok := true;
  }

  method CheckCleanup(report: Json) returns (ok: bool)
    ensures ok <==> CleanedUp(report)
  {
    var cleanup := Get(report, "cleanup");
    if !cleanup.Obj? || cleanup.o.Keys != {"uidAbsent", "emailAbsent"} { return false; }
    ok := cleanup.o["uidAbsent"] == Bool(true) && cleanup.o["emailAbsent"] == Bool(true);
  }

  method CheckComplete(report: Json) returns (ok: bool)
    ensures ok <==> Complete(report)
  {
    hide ValidRows, CleanedUp;
    if !report.Obj? || "failure" in report.o || "cleanupFailure" in report.o || "childCleanupFailure" in report.o {
      return false;
    }
    ok := CheckCleanup(report);
    if !ok { return false; }
    ok := CheckRows(report);
    if !ok { return false; }
    assert Get(report, "cases").Arr? by { RowsAreArray(report); }
    var rows := Get(report, "cases").a;
    var status := "observed";
    for i := 0 to |rows|
      invariant status == "observed" <==> forall k :: 0 <= k < i ==> Get(rows[k], "quality") == OBSERVED
      invariant status in {"observed", "inconclusive"}
    {
      if Get(rows[i], "quality") != Str("observed") { status := "inconclusive"; }
    }
    ok := Get(report, "status") == Str(status);
  }

  lemma RowsAreArray(report: Json)
    requires ValidRows(report)
    ensures Get(report, "cases").Arr?
  {
  }

  method CheckReport(report: Json, target: string) returns (ok: bool)
    ensures ok <==> ValidReport(report, target)
  {
    hide ValidRows, ValidTiming, Complete, CleanedUp, Date, Hex;
    if !report.Obj? || Get(report, "target") != Str(target) { return false; }
    ok := MatchesDate(Get(report, "recordedAt"));
    if !ok { return false; }
    ok := MatchesHex(Get(report, "probeSourceCommit"), 40);
    if !ok { return false; }
    ok := MatchesHex(Get(report, "privateReceiptSha256"), 64);
    if !ok { return false; }
    ok := CheckCleanup(report);
    if !ok { return false; }
    ok := CheckRows(report);
    if !ok { return false; }
    ok := CheckTiming(report);
    if !ok { return false; }
    ok := CheckComplete(report);
  }

  method CheckProduction(f: Foreign, report: Json) returns (ok: bool)
    ensures ok <==> ValidProduction(f, report)
  {
    hide ValidReport, Hex, PasswordPolicy;
    if !report.Obj? || report.o.Keys != {"target", "recordedAt", "probeSourceCommit", "cases", "cleanup",
                                         "privateReceiptSha256", "status", "timing", "configuration",
                                         "configurationUnchanged"} { return false; }
    ok := CheckReport(report, "production");
    if !ok { return false; }
    var config := report.o["configuration"];
    if !config.Obj? || config.o.Keys != {"sha256", "emailEnabled", "passwordRequired", "improvedEmailPrivacy",
                                         "blockingTriggersAbsent", "adminPasswordPolicyAbsent", "passwordPolicy"} {
      return false;
    }
    if config.o["emailEnabled"] != Bool(true) || config.o["passwordRequired"] != Bool(true) ||
       config.o["improvedEmailPrivacy"] != Bool(true) || config.o["blockingTriggersAbsent"] != Bool(true) ||
       config.o["adminPasswordPolicyAbsent"] != Bool(true) { return false; }
    if f.digest(config.o["passwordPolicy"]) != f.digest(PasswordPolicy()) { return false; }
    if report.o["configurationUnchanged"] != Bool(true) { return false; }
    ok := MatchesHex(config.o["sha256"], 64);
  }

  method CheckConfiguration(f: Foreign, config: Json) returns (ok: bool)
    ensures ok <==> ValidConfiguration(f, config)
  {
    hide Hex;
    if !config.Obj? || config.o.Keys != {"value", "sha256", "fileSha256"} { return false; }
    var value := config.o["value"];
    if !value.Obj? || value.o.Keys != {"schemaVersion", "profile"} { return false; }
    if value.o["profile"] != Str("strict") || config.o["sha256"] != Str(f.digest(value)) { return false; }
    ok := MatchesHex(config.o["fileSha256"], 64);
    if !ok { return false; }
    ok := value.o["schemaVersion"] == Int(1) && config.o["fileSha256"] == Str(f.sha256(f.pretty(value)));
  }

  method CheckBuild(env: Env, build: Json, artifactSha: Json) returns (ok: bool)
    ensures ok <==> ValidBuild(env, build, artifactSha)
  {
    hide Same;
    if !build.Obj? || build.o.Keys != {"command", "exitCode", "artifactSha256", "inputs"} { return false; }
    var command := build.o["command"];
    if !command.Arr? || command.a != [Str("cargo"), Str("build"), Str("--locked"), Str("-p"), Str("fireemu"),
                                      Str("--message-format=json")] { return false; }
    if build.o["exitCode"] != Int(0) { return false; }
    if !Same(build.o["artifactSha256"], artifactSha) || env.runtimeInputs.None? { return false; }
    ok := Same(build.o["inputs"], env.runtimeInputs.value);
  }

  method CheckProcess(process: Json, instance: Json, version: Json) returns (ok: bool)
    ensures ok <==> ValidProcess(process, instance, version)
  {
    hide Same, Hex;
    if !process.Obj? || process.o.Keys != {"pid", "exitCode", "stopped", "listenersClosed"} { return false; }
    if !instance.Obj? || instance.o.Keys != {"parentPid", "childPid", "nonce", "profile", "version",
                                             "wrongTokenStatus"} { return false; }
    var pid, child, parent := process.o["pid"], instance.o["childPid"], instance.o["parentPid"];
    if !pid.Int? || pid.n <= 1 || !child.Int? || child.n <= 1 { return false; }
    if !parent.Int? || parent.n != pid.n || child.n == pid.n { return false; }
    if process.o["exitCode"] != Int(0) || process.o["stopped"] != Bool(true) { return false; }
    if process.o["listenersClosed"] != Bool(true) || instance.o["wrongTokenStatus"] != Int(403) { return false; }
    if instance.o["profile"] != Str("strict") || !Same(instance.o["version"], version) { return false; }
    ok := MatchesHex(instance.o["nonce"], 32);
  }

  method CheckLocal(env: Env, report: Json) returns (ok: bool)
    ensures ok <==> ValidLocal(env, report)
  {
    hide ValidReport, ValidConfiguration, ValidBuild, ValidProcess, Hex, VersionText;
    if !report.Obj? || report.o.Keys != {"target", "recordedAt", "probeSourceCommit", "cases", "cleanup",
                                         "privateReceiptSha256", "status", "timing", "artifact", "configuration",
                                         "ownedProcess", "runtimeSourceCommit", "build", "instance"} { return false; }
    ok := CheckReport(report, "local");
    if !ok { return false; }
    ok := MatchesHex(report.o["runtimeSourceCommit"], 40);
    if !ok { return false; }
    var artifact := report.o["artifact"];
    if !artifact.Obj? || artifact.o.Keys != {"sha256", "version", "kind"} { return false; }
    if artifact.o["kind"] != Str("local-build") { return false; }
    if !artifact.o["version"].Str? || !VersionText(artifact.o["version"].s) { return false; }
    ok := MatchesHex(artifact.o["sha256"], 64);
    if !ok { return false; }
    ok := CheckConfiguration(env.f, report.o["configuration"]);
    if !ok { return false; }
    ok := CheckBuild(env, report.o["build"], artifact.o["sha256"]);
    if !ok { return false; }
    ok := CheckProcess(report.o["ownedProcess"], report.o["instance"], artifact.o["version"]);
  }

  method CheckReview(env: Env, value: Json) returns (ok: bool)
    ensures ok <==> ValidReview(env, value)
  {
    hide Same, Text;
    if env.review.None? { return false; }
    var loaded := env.f.loads(env.review.value);
    if loaded.None? || !Same(Get(value, "sourceReviewSha256"), Str(env.f.digest(loaded.value))) { return false; }
    var obligations := Get(loaded.value, "obligations");
    if !obligations.Arr? || |obligations.a| != |CASES| { return false; }
    for i := 0 to |CASES|
      invariant forall k :: 0 <= k < i ==> Get(obligations.a[k], "case") == Str(Text(CASES[k]))
    {
      if Get(obligations.a[i], "case") != Str(Text(CASES[i])) { return false; }
    }
    ok := Get(loaded.value, "executionApproval") == Str("not-granted");
  }

  /** The whole receipt, against what the publisher reads besides it. */
  method Validate(env: Env, value: Json) returns (ok: bool)
    ensures ok <==> Validates(env, value)
  {
    hide ValidReview, ValidLocal, ValidProduction, Corpus, Same;
    if !value.Obj? || value.o.Keys != {"schemaVersion", "acceptance", "scope", "corpus", "probeInputs",
                                       "sourceReviewSha256", "publicationContractSha256", "local", "production"} {
      return false;
    }
    if value.o["schemaVersion"] != Int(2) || value.o["acceptance"] != Str("candidate") { return false; }
    if value.o["scope"] != Str(env.scope) { return false; }
    if env.f.digest(value.o["corpus"]) != env.f.digest(Corpus()) { return false; }
    if !Same(value.o["probeInputs"], env.inputs) { return false; }
    if !Same(value.o["publicationContractSha256"], Str(env.contractSha)) { return false; }
    ok := CheckReview(env, value);
    if !ok { return false; }
    ok := CheckLocal(env, value.o["local"]);
    if !ok { return false; }
    ok := CheckProduction(env.f, value.o["production"]);
  }

  // ----- Names and shapes -----

  /** What the corpus and the password policy of a receipt say. */
  lemma FixedValues()
    ensures Keys(Corpus(), {"slice", "revision", "cases", "offsetsMs", "deadlineMs", "requestBudgetMs", "lateAfterMs"})
    ensures Get(Corpus(), "slice") == Str("auth-session-v2") && Get(Corpus(), "revision") == Int(2)
    ensures Get(Corpus(), "offsetsMs") == Arr([Int(0), Int(10000), Int(30000)])
    ensures Get(Corpus(), "deadlineMs") == Int(45000) && Get(Corpus(), "requestBudgetMs") == Int(5000)
    ensures Get(Corpus(), "lateAfterMs") == Int(2000)
    ensures Get(Corpus(), "cases").Arr? && |Get(Corpus(), "cases").a| == 34
    ensures forall i :: 0 <= i < 34 ==> Get(Corpus(), "cases").a[i] == Str(NAMES[i])
    ensures Keys(PasswordPolicy(), {"customStrengthOptions", "schemaVersion", "enforcementState"})
    ensures Get(PasswordPolicy(), "schemaVersion") == Int(1)
    ensures Get(PasswordPolicy(), "enforcementState") == Str("ENFORCE")
    ensures Keys(Get(PasswordPolicy(), "customStrengthOptions"), {"minPasswordLength", "maxPasswordLength"})
    ensures Get(Get(PasswordPolicy(), "customStrengthOptions"), "minPasswordLength") == Int(6)
    ensures Get(Get(PasswordPolicy(), "customStrengthOptions"), "maxPasswordLength") == Int(4096)
  {
    hide Text, NAMES, CASES;
    CaseIds(0);
    forall i | 0 <= i < 34 ensures CaseNames().a[i] == Str(NAMES[i]) { CaseIds(i); }
  }

  lemma CasesAre(i: nat)
    requires i < 34
    ensures |CASES| == 34
    ensures CASES[i] == if i < 10 then BASELINES[i]
                        else if i < 16 then Round(0)[i - 10]
                        else if i < 22 then Round(1)[i - 16]
                        else if i < 28 then Round(2)[i - 22]
                        else CONTROLS[i - 28]
  {
  }

  const NAMES: seq<string> :=
    ["signup", "signin-a", "signin-b", "a-id-baseline", "a-refresh-baseline-1", "a-refresh-baseline-2", "b-id-baseline",
     "b-refresh-baseline-1", "b-refresh-baseline-2", "change-password",
     "a-id@0", "a-refresh@0", "b-id@0", "b-refresh@0", "changed-id@0", "changed-refresh@0",
     "a-id@10000", "a-refresh@10000", "b-id@10000", "b-refresh@10000", "changed-id@10000", "changed-refresh@10000",
     "a-id@30000", "a-refresh@30000", "b-id@30000", "b-refresh@30000", "changed-id@30000", "changed-refresh@30000",
     "new-password-signin", "new-password-lookup", "malformed-refresh", "unknown-refresh", "delete",
     "deleted-account-absent"]

  lemma Round0Names(i: nat)
    requires i < 6
    ensures Text(Round(0)[i]) == NAMES[10 + i]
  {
    assert OffsetText(0) == "0";
    hide OffsetText, NAMES;
    assert "a-id" + "@" + "0" == "a-id@0" && "a-refresh" + "@" + "0" == "a-refresh@0";
    assert "b-id" + "@" + "0" == "b-id@0" && "b-refresh" + "@" + "0" == "b-refresh@0";
    assert "changed-id" + "@" + "0" == "changed-id@0";
    assert "changed-refresh" + "@" + "0" == "changed-refresh@0";
    Names0(i);
  }

  lemma Names0(i: nat)
    requires i < 6
    ensures NAMES[10 + i] == ["a-id@0", "a-refresh@0", "b-id@0", "b-refresh@0", "changed-id@0",
                             "changed-refresh@0"][i]
  {
  }

  lemma Round1Names(i: nat)
    requires i < 6
    ensures Text(Round(1)[i]) == NAMES[16 + i]
  {
    assert OffsetText(1) == "10000";
    hide OffsetText, NAMES;
    assert "a-id" + "@" + "10000" == "a-id@10000" && "a-refresh" + "@" + "10000" == "a-refresh@10000";
    assert "b-id" + "@" + "10000" == "b-id@10000" && "b-refresh" + "@" + "10000" == "b-refresh@10000";
    assert "changed-id" + "@" + "10000" == "changed-id@10000";
    assert "changed-refresh" + "@" + "10000" == "changed-refresh@10000";
    Names1(i);
  }

  lemma Names1(i: nat)
    requires i < 6
    ensures NAMES[16 + i] == ["a-id@10000", "a-refresh@10000", "b-id@10000", "b-refresh@10000", "changed-id@10000",
                             "changed-refresh@10000"][i]
  {
  }

  lemma Round2Names(i: nat)
    requires i < 6
    ensures Text(Round(2)[i]) == NAMES[22 + i]
  {
    assert OffsetText(2) == "30000";
    hide OffsetText, NAMES;
    assert "a-id" + "@" + "30000" == "a-id@30000" && "a-refresh" + "@" + "30000" == "a-refresh@30000";
    assert "b-id" + "@" + "30000" == "b-id@30000" && "b-refresh" + "@" + "30000" == "b-refresh@30000";
    assert "changed-id" + "@" + "30000" == "changed-id@30000";
    assert "changed-refresh" + "@" + "30000" == "changed-refresh@30000";
    Names2(i);
  }

  lemma Names2(i: nat)
    requires i < 6
    ensures NAMES[22 + i] == ["a-id@30000", "a-refresh@30000", "b-id@30000", "b-refresh@30000", "changed-id@30000",
                             "changed-refresh@30000"][i]
  {
  }

  lemma BaselineNames(i: nat)
    requires i < 10
    ensures Text(BASELINES[i]) == NAMES[i]
  {
    assert NAMES[..10] == ["signup", "signin-a", "signin-b", "a-id-baseline", "a-refresh-baseline-1",
                           "a-refresh-baseline-2", "b-id-baseline", "b-refresh-baseline-1", "b-refresh-baseline-2",
                           "change-password"];
    assert NAMES[..10][i] == NAMES[i];
    hide NAMES;
  }

  lemma ControlNames(i: nat)
    requires i < 6
    ensures Text(CONTROLS[i]) == NAMES[28 + i]
  {
    assert NAMES[28..] == ["new-password-signin", "new-password-lookup", "malformed-refresh", "unknown-refresh",
                           "delete", "deleted-account-absent"];
    assert NAMES[28..][i] == NAMES[28 + i];
    hide NAMES;
  }

  /** The thirty-four cases by name, in the order in which they are recorded. */
  lemma CaseIds(i: nat)
    requires i < 34
    ensures |CASES| == 34 && |NAMES| == 34 && Text(CASES[i]) == NAMES[i]
  {
    CasesAre(i);
    assert |NAMES| == 34;
    hide CASES, Text, NAMES;
    if i < 10 {
      BaselineNames(i);
    } else if i < 16 {
      Round0Names(i - 10);
    } else if i < 22 {
      Round1Names(i - 16);
    } else if i < 28 {
      Round2Names(i - 22);
    } else {
      ControlNames(i - 28);
    }
  }

  /** What is asked of a case follows from its name. */
  lemma KindIff(c: Case)
    ensures KindOf(c) == Token <==>
              Text(c) in {"signup", "signin-a", "signin-b", "change-password", "new-password-signin"}
    ensures KindOf(c) == Refresh <==> exists i :: OccursAt(Text(c), "refresh", i)
    ensures KindOf(c) == Deletion <==> Text(c) == "delete"
    ensures KindOf(c) == Absence <==> Text(c) == "deleted-account-absent"
  {
    hide OccursAt;
    RefreshIff(c);
    if c.Sample? { SampleIsNamed(c.lane, c.round); }
  }

  lemma SampleIsNamed(lane: Lane, round: nat)
    ensures '@' in Text(Sample(lane, round))
  {
    var t := Text(Sample(lane, round));
    assert t[|LaneText(lane)|] == '@';
  }

  lemma RefreshNeedsF(s: string, i: int)
    requires OccursAt(s, "refresh", i)
    ensures 'f' in s
  {
    assert s[i + 2] == s[i..i + 7][2] == "refresh"[2];
  }

  /** A text with a part in the middle. */
  lemma PartAt(s: string, before: string, part: string, after: string)
    requires s == before + part + after
    ensures OccursAt(s, part, |before|)
  {
  }

  lemma LaneRefresh(lane: Lane, round: nat) returns (before: string)
    requires RefreshLane(lane)
    ensures Text(Sample(lane, round)) == before + "refresh" + ("@" + OffsetText(round))
  {
    hide OffsetText;
    before := if lane == ARefresh then "a-" else if lane == BRefresh then "b-" else "changed-";
    assert LaneText(lane) == before + "refresh";
  }

  lemma BaselineRefresh(c: Case) returns (before: string, after: string)
    requires KindOf(c) == Refresh && !c.Sample?
    ensures Text(c) == before + "refresh" + after
  {
    match c {
      case MalformedRefresh =>
        before, after := "malformed-", "";
        assert before + "refresh" + after == "malformed-refresh";
      case UnknownRefresh =>
        before, after := "unknown-", "";
        assert before + "refresh" + after == "unknown-refresh";
      case ARefreshBaseline1 =>
        before, after := "a-", "-baseline-1";
        assert before + "refresh" + after == "a-refresh-baseline-1";
      case ARefreshBaseline2 =>
        before, after := "a-", "-baseline-2";
        assert before + "refresh" + after == "a-refresh-baseline-2";
      case BRefreshBaseline1 =>
        before, after := "b-", "-baseline-1";
        assert before + "refresh" + after == "b-refresh-baseline-1";
      case BRefreshBaseline2 =>
        before, after := "b-", "-baseline-2";
        assert before + "refresh" + after == "b-refresh-baseline-2";
    }
  }

  lemma RefreshAt(c: Case) returns (i: nat)
    requires KindOf(c) == Refresh
    ensures OccursAt(Text(c), "refresh", i)
  {
    hide OccursAt, Text, OffsetText;
    if c.Sample? {
      var before := LaneRefresh(c.lane, c.round);
      i := |before|;
      PartAt(Text(c), before, "refresh", "@" + OffsetText(c.round));
    } else {
      var before, after := BaselineRefresh(c);
      i := |before|;
      PartAt(Text(c), before, "refresh", after);
    }
  }

  lemma NoF(c: Case)
    requires KindOf(c) != Refresh
    ensures 'f' !in Text(c)
  {
  }

  lemma RefreshIff(c: Case)
    ensures KindOf(c) == Refresh <==> exists i :: OccursAt(Text(c), "refresh", i)
  {
    hide OccursAt, Text;
    if KindOf(c) == Refresh {
      var i := RefreshAt(c);
    } else {
      NoF(c);
      forall i | OccursAt(Text(c), "refresh", i) ensures false { RefreshNeedsF(Text(c), i); }
    }
  }

  lemma VersionJoined(s: string, i: nat, j: nat)
    requires i < j < |s| && s[i] == '.' && s[j] == '.'
    ensures s == s[..i] + ("." + (s[i + 1..j] + ("." + s[j + 1..])))
  {
  }

  lemma VersionSplit(s: string, a: string, b: string, c: string)
    requires s == a + ("." + (b + ("." + c)))
    ensures var i, j := |a|, |a| + 1 + |b|;
            i < j < |s| && s[i] == '.' && s[j] == '.' && s[..i] == a && s[i + 1..j] == b && s[j + 1..] == c
  {
  }

  predicate VersionOf(s: string, a: string, b: string, c: string) {
    Digits(a) && Digits(b) && Digits(c) && s == a + ("." + (b + ("." + c)))
  }

  lemma HasVersion(s: string) returns (a: string, b: string, c: string)
    requires VersionText(s)
    ensures VersionOf(s, a, b, c)
  {
    hide Digits;
    var i, j :| && 0 <= i < j < |s| && s[i] == '.' && s[j] == '.'
                && Digits(s[..i]) && Digits(s[i + 1..j]) && Digits(s[j + 1..]);
    VersionJoined(s, i, j);
    a, b, c := s[..i], s[i + 1..j], s[j + 1..];
  }

  /** A version is three groups of digits with a dot between them. */
  lemma VersionIff(s: string)
    ensures VersionText(s) <==> exists a, b, c :: VersionOf(s, a, b, c)
  {
    hide VersionText, VersionOf;
    if VersionText(s) { var a, b, c := HasVersion(s); }
    if a, b, c :| VersionOf(s, a, b, c) { IsVersion(s, a, b, c); }
  }

  lemma IsVersion(s: string, a: string, b: string, c: string)
    requires VersionOf(s, a, b, c)
    ensures VersionText(s)
  {
    hide Digits;
    VersionSplit(s, a, b, c);
    var i, j := |a|, |a| + 1 + |b|;
    assert Digits(s[..i]) && Digits(s[i + 1..j]) && Digits(s[j + 1..]);
  }
}
