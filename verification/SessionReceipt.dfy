/**
 The session-v2 publisher's validator and comparison (tools/publish-auth-session-v2.py) and the
 acceptance loop of its approval (tools/auth-session-v2-approval.py).
 */
module SessionReceipt {
  import opened Common
  import opened Json
  import opened SessionContract

  /** What the validator reads besides the receipt: its fixed texts and four live inputs. */
  datatype Env = Env(
    f: Foreign,
    scope: string,
    inputs: Json,
    runtimeInputs: Option<Json>,
    review: Option<Bytes>,
    contractSha: string)

  function CaseNames(): Json {
    Arr(seq(|CASES|, i requires 0 <= i < |CASES| => Str(Text(CASES[i]))))
  }

  function Corpus(): Json {
    Obj(map["slice" := Str("auth-session-v2"), "revision" := Int(2), "cases" := CaseNames(),
            "offsetsMs" := Arr([Int(0), Int(10000), Int(30000)]), "deadlineMs" := Int(DEADLINE_MS),
            "requestBudgetMs" := Int(5000), "lateAfterMs" := Int(2000)])
  }

  function PasswordPolicy(): Json {
    Obj(map["customStrengthOptions" := Obj(map["minPasswordLength" := Int(6), "maxPasswordLength" := Int(4096)]),
            "schemaVersion" := Int(1), "enforcementState" := Str("ENFORCE")])
  }

  // ----- Timing -----

  /** The latest issue time among the rows whose response has one. */
  function LatestIat(rows: seq<Json>): Option<int> {
    if rows == [] then None
    else
      var rest := LatestIat(rows[..|rows| - 1]);
      var iat := Get(Get(Get(rows[|rows| - 1], "response"), "tokenTime"), "iat");
      if !iat.Int? then rest
      else if rest.None? || rest.value < iat.n then Some(iat.n)
      else rest
  }

  const TIMING: set<string> :=
    {"sessionsSeparated", "issueGapMs", "preChangeWaitMs", "mutationStartMs", "mutationEndMs",
     "latestPreIssuedAt", "changedIssuedAt", "orderEstablished"}

  predicate ValidTiming(report: Json)
    requires ValidRows(report)
  {
    var timing, rows := Get(report, "timing"), Get(report, "cases").a;
    assert ValidCase(rows[1], CASES[1]) && ValidCase(rows[2], CASES[2]) && ValidCase(rows[8], CASES[8]) &&
      ValidCase(rows[9], CASES[9]);
    var changed := rows[9];
    var changedIat := Get(Get(changed.o["response"], "tokenTime"), "iat");
    && Keys(timing, TIMING)
    && IsTrue(timing.o["sessionsSeparated"]) && IsTrue(timing.o["orderEstablished"])
    && Within(timing.o["issueGapMs"], 2000, BUDGET_MS) && Within(timing.o["preChangeWaitMs"], 3000, BUDGET_MS)
    && Within(timing.o["mutationStartMs"], 0, BUDGET_MS)
    && Within(timing.o["mutationEndMs"], timing.o["mutationStartMs"].n, BUDGET_MS)
    && timing.o["issueGapMs"].n == rows[2].o["startMs"].n - rows[1].o["primaryEndMs"].n
    && timing.o["preChangeWaitMs"].n == rows[9].o["startMs"].n - rows[8].o["endMs"].n
    && LatestIat(rows[..9]).Some?
    && (forall i :: 0 <= i < 10 ==> Get(rows[i], "quality") == OBSERVED)
    && Within(timing.o["latestPreIssuedAt"], 0, FAR_FUTURE)
    && timing.o["latestPreIssuedAt"].n == LatestIat(rows[..9]).value
    && Within(timing.o["changedIssuedAt"], 0, FAR_FUTURE) && changedIat.Int?
    && timing.o["changedIssuedAt"].n == changedIat.n
    && timing.o["changedIssuedAt"].n > LatestIat(rows[..9]).value
    && timing.o["mutationStartMs"].n == changed.o["startMs"].n
    && timing.o["mutationEndMs"].n >= changed.o["endMs"].n
  }

  // ----- The receipt -----

  const COMMON: set<string> :=
    {"target", "recordedAt", "probeSourceCommit", "cases", "cleanup", "privateReceiptSha256", "status", "timing"}

  predicate ValidReport(report: Json, target: string) {
    && report.Obj?
    && Get(report, "target") == Str(target) && Date(Get(report, "recordedAt"))
    && Hex(Get(report, "probeSourceCommit"), 40) && Hex(Get(report, "privateReceiptSha256"), 64)
    && CleanedUp(report) && ValidRows(report) && ValidTiming(report) && Complete(report)
  }

  predicate ValidProduction(f: Foreign, report: Json) {
    && Keys(report, COMMON + {"configuration", "configurationUnchanged"})
    && ValidReport(report, "production")
    && var config := report.o["configuration"];
    && Keys(config, {"sha256", "emailEnabled", "passwordRequired", "improvedEmailPrivacy", "blockingTriggersAbsent",
                     "adminPasswordPolicyAbsent", "passwordPolicy"})
    && (forall k :: k in config.o && k != "sha256" && k != "passwordPolicy" ==> IsTrue(config.o[k]))
    && f.digest(config.o["passwordPolicy"]) == f.digest(PasswordPolicy())
    && IsTrue(report.o["configurationUnchanged"]) && Hex(config.o["sha256"], 64)
  }

  predicate ValidConfiguration(f: Foreign, config: Json) {
    && Keys(config, {"value", "sha256", "fileSha256"})
    && Keys(config.o["value"], {"schemaVersion", "profile"})
    && config.o["value"].o["schemaVersion"] == Int(1) && config.o["value"].o["profile"] == Str("strict")
    && config.o["sha256"] == Str(f.digest(config.o["value"]))
    && Hex(config.o["fileSha256"], 64) && config.o["fileSha256"] == Str(f.sha256(f.pretty(config.o["value"])))
  }

  const COMMAND := Arr([Str("cargo"), Str("build"), Str("--locked"), Str("-p"), Str("fireemu"),
                        Str("--message-format=json")])

  predicate ValidBuild(env: Env, build: Json, artifactSha: Json) {
    && Keys(build, {"command", "exitCode", "artifactSha256", "inputs"})
    && build.o["command"] == COMMAND && build.o["exitCode"] == Int(0)
    && Same(build.o["artifactSha256"], artifactSha)
    && env.runtimeInputs.Some? && Same(build.o["inputs"], env.runtimeInputs.value)
  }

  predicate ValidProcess(process: Json, instance: Json, version: Json) {
    && Keys(process, {"pid", "exitCode", "stopped", "listenersClosed"})
    && Keys(instance, {"parentPid", "childPid", "nonce", "profile", "version", "wrongTokenStatus"})
    && process.o["pid"].Int? && process.o["pid"].n > 1
    && instance.o["childPid"].Int? && instance.o["childPid"].n > 1
    && instance.o["parentPid"] == process.o["pid"] && instance.o["childPid"] != process.o["pid"]
    && process.o["exitCode"] == Int(0) && IsTrue(process.o["stopped"]) && IsTrue(process.o["listenersClosed"])
    && instance.o["wrongTokenStatus"] == Int(403) && instance.o["profile"] == Str("strict")
    && Same(instance.o["version"], version) && Hex(instance.o["nonce"], 32)
  }

  predicate ValidLocal(env: Env, report: Json) {
    && Keys(report, COMMON + {"artifact", "configuration", "ownedProcess", "runtimeSourceCommit", "build", "instance"})
    && ValidReport(report, "local")
    && Hex(report.o["runtimeSourceCommit"], 40)
    && var artifact := report.o["artifact"];
    && Keys(artifact, {"sha256", "version", "kind"}) && artifact.o["kind"] == Str("local-build")
    && artifact.o["version"].Str? && VersionText(artifact.o["version"].s) && Hex(artifact.o["sha256"], 64)
    && ValidConfiguration(env.f, report.o["configuration"])
    && ValidBuild(env, report.o["build"], artifact.o["sha256"])
    && ValidProcess(report.o["ownedProcess"], report.o["instance"], artifact.o["version"])
  }

  predicate ValidReview(env: Env, value: Json) {
    && env.review.Some? && env.f.loads(env.review.value).Some?
    && var review := env.f.loads(env.review.value).value;
    && Same(Get(value, "sourceReviewSha256"), Str(env.f.digest(review)))
    && Get(review, "obligations").Arr?
    && |Get(review, "obligations").a| == |CASES|
    && (forall i :: 0 <= i < |CASES| ==> Get(Get(review, "obligations").a[i], "case") == Str(Text(CASES[i])))
    && Get(review, "executionApproval") == Str("not-granted")
  }

  const RECEIPT: set<string> :=
    {"schemaVersion", "acceptance", "scope", "corpus", "probeInputs", "sourceReviewSha256",
     "publicationContractSha256", "local", "production"}

  /** The strict validator: a receipt against its own contract and the four live inputs. */
  predicate Validates(env: Env, value: Json) {
    && Keys(value, RECEIPT)
    && value.o["schemaVersion"] == Int(2) && value.o["acceptance"] == Str("candidate")
    && value.o["scope"] == Str(env.scope)
    && env.f.digest(value.o["corpus"]) == env.f.digest(Corpus()) && Same(value.o["probeInputs"], env.inputs)
    && Same(value.o["publicationContractSha256"], Str(env.contractSha))
    && ValidReview(env, value)
    && ValidLocal(env, value.o["local"]) && ValidProduction(env.f, value.o["production"])
  }

  // ----- Comparison -----

  /** Outcome and error of the row, and of its issued-token lookup if there is one. */
  datatype Signature = Signature(outcome: Json, error: Json, follow: Option<(Json, Json)>)

  function SignatureOf(row: Json): Signature {
    var response, follow := Get(row, "response"), Get(row, "followup");
    Signature(Get(response, "outcome"), Get(response, "error"),
              if follow.Null? then None else Some((Get(follow, "outcome"), Get(follow, "error"))))
  }

  predicate SameSignature(x: Signature, y: Signature) {
    && Same(x.outcome, y.outcome) && Same(x.error, y.error)
    && (x.follow.None? <==> y.follow.None?)
    && (x.follow.Some? && y.follow.Some? ==>
          Same(x.follow.value.0, y.follow.value.0) && Same(x.follow.value.1, y.follow.value.1))
  }

  datatype Verdict = Inconclusive | SameResult | Different

  function Comparison(local: Json, production: Json, controls: bool): Verdict {
    if !controls || Get(local, "quality") != OBSERVED || Get(production, "quality") != OBSERVED then Inconclusive
    else if SameSignature(SignatureOf(local), SignatureOf(production)) then SameResult
    else Different
  }

  /** The controls that a sample of the round is judged with. */
  function RoundControls(round: nat): set<string> {
    {Text(Sample(ChangedId, round)), Text(Sample(ChangedRefresh, round)), Text(NewPasswordSignin),
     Text(NewPasswordLookup), Text(MalformedRefresh), Text(UnknownRefresh)}
  }

  predicate InRound(name: Json, round: nat) {
    name in {Str(Text(Sample(AId, round))), Str(Text(Sample(ARefresh, round))), Str(Text(Sample(BId, round))),
             Str(Text(Sample(BRefresh, round))), Str(Text(Sample(ChangedId, round))),
             Str(Text(Sample(ChangedRefresh, round)))}
  }

  /** The round named after the `@` of a sample's name. */
  function RoundOf(name: Json): Option<nat> {
    if InRound(name, 0) then Some(0)
    else if InRound(name, 1) then Some(1)
    else if InRound(name, 2) then Some(2)
    else None
  }

  predicate RowsObserved(report: Json, names: set<string>) {
    Get(report, "cases").Arr? &&
    forall i :: 0 <= i < |Get(report, "cases").a| ==>
      var row := Get(report, "cases").a[i];
      Get(row, "id").Str? && Get(row, "id").s in names ==> Get(row, "quality") == OBSERVED
  }

  /** Whether a row of the name may be compared at all. */
  predicate Controlled(value: Json, name: Json) {
    var round := RoundOf(name);
    if round.None? then
      Get(Get(value, "local"), "status") == OBSERVED && Get(Get(value, "production"), "status") == OBSERVED
    else
      && RowsObserved(Get(value, "local"), RoundControls(round.value))
      && RowsObserved(Get(value, "production"), RoundControls(round.value))
  }
}
