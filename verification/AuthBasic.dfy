/**
 The basic Auth publisher (tools/publish-auth-basic.py, tools/auth-basic/contract.py): a report is
 projected to listed fields, two projections make a bundle, and the bundle is validated.
 */
module AuthBasic {
  import opened Common
  import opened Texts
  import opened Json

  const CASES: seq<string> :=
    ["signup", "signin", "lookup", "wrong-password", "unchanged-state", "refresh", "refreshed-lookup", "delete",
     "deleted-account-absent"]

  const TOKEN: set<string> :=
    {"httpOk", "noError", "idTokenPresent", "refreshTokenPresent", "uidMatches", "expiryValid", "emailMatches"}

  const CHECKS: map<string, set<string>> :=
    map["signup" := TOKEN, "signin" := TOKEN, "lookup" := {"ownedIdentity"},
        "wrong-password" := {"rejected", "expectedError"}, "unchanged-state" := {"selectedStableFieldsUnchanged"},
        "refresh" := TOKEN - {"emailMatches"} + {"bearerType"}, "refreshed-lookup" := {"ownedIdentity"},
        "delete" := {"httpOk", "noError"}, "deleted-account-absent" := {"bothSelectorsAbsent"}]

  /** The digest, and the recorder's own inputs as they are read at one moment. */
  datatype Env = Env(f: Foreign, inputs: Json)

  const CLEANED := Obj(map["uidAbsent" := Bool(true), "emailAbsent" := Bool(true)])

  function CaseNames(): Json {
    Arr(seq(|CASES|, i requires 0 <= i < |CASES| => Str(CASES[i])))
  }

  function Corpus(): Json {
    Obj(map["revision" := Int(1), "cases" := CaseNames()])
  }

  // ----- Rows -----

  predicate ValidRow(row: Json, name: string) {
    && Keys(row, {"id", "httpStatus", "checks", "passed"})
    && row.o["id"] == Str(name) && Within(row.o["httpStatus"], 100, 599)
    && name in CHECKS && Keys(row.o["checks"], CHECKS[name])
    && (forall k :: k in row.o["checks"].o ==> row.o["checks"].o[k].Bool?)
    && row.o["passed"].Bool? && row.o["passed"].b == (forall k :: k in row.o["checks"].o ==> row.o["checks"].o[k].b)
    && (row.o["passed"].b ==> row.o["httpStatus"].n == if name == "wrong-password" then 400 else 200)
  }

  predicate ValidRows(rows: Json) {
    rows.Arr? && |rows.a| == |CASES| && forall i :: 0 <= i < |CASES| ==> ValidRow(rows.a[i], CASES[i])
  }

  method WantedChecks(name: string) returns (checks: Option<set<string>>)
    ensures checks == if name in CHECKS then Some(CHECKS[name]) else None
  {
    var token := {"httpOk", "noError", "idTokenPresent", "refreshTokenPresent", "uidMatches", "expiryValid"};
    if name == "signup" || name == "signin" {
      assert token + {"emailMatches"} == TOKEN;
      return Some(token + {"emailMatches"});
    }
    if name == "refresh" {
      assert token + {"bearerType"} == TOKEN - {"emailMatches"} + {"bearerType"};
      return Some(token + {"bearerType"});
    }
    if name == "lookup" || name == "refreshed-lookup" { return Some({"ownedIdentity"}); }
    if name == "wrong-password" { return Some({"rejected", "expectedError"}); }
    if name == "unchanged-state" { return Some({"selectedStableFieldsUnchanged"}); }
    if name == "delete" { return Some({"httpOk", "noError"}); }
    if name == "deleted-account-absent" { return Some({"bothSelectorsAbsent"}); }
    checks := None;
  }

  /** One row, requirement after requirement. */
  method CheckRow(row: Json, name: string) returns (ok: bool)
    ensures ok <==> ValidRow(row, name)
  {
    hide CHECKS;
    if !row.Obj? || row.o.Keys != {"id", "httpStatus", "checks", "passed"} { return false; }
    var status, checks, passed := row.o["httpStatus"], row.o["checks"], row.o["passed"];
    if row.o["id"] != Str(name) || !status.Int? || status.n < 100 || status.n > 599 { return false; }
    var wanted := WantedChecks(name);
    if wanted.None? || !checks.Obj? || checks.o.Keys != wanted.value { return false; }
    var all := true;
    var left := checks.o.Keys;
    while left != {}
      invariant left <= checks.o.Keys
      invariant forall k :: k in checks.o && k !in left ==> checks.o[k].Bool?
      invariant all <==> forall k :: k in checks.o && k !in left ==> checks.o[k] == Bool(true)
      decreases |left|
    {
      var k :| k in left;
      if !checks.o[k].Bool? { return false; }
      if !checks.o[k].b { all := false; }
      left := left - {k};
    }
    if !passed.Bool? || passed.b != all { return false; }
    ok := !passed.b || status.n == (if name == "wrong-password" then 400 else 200);
  }

  /** The pairs of rows and names, one by one. */
  method CheckRows(rows: Json) returns (ok: bool)
    ensures ok <==> ValidRows(rows)
  {
    hide ValidRow;
    if !rows.Arr? || |rows.a| != |CASES| {
      return false;
    }
    for i := 0 to |CASES|
      invariant forall k :: 0 <= k < i ==> ValidRow(rows.a[k], CASES[k])
    {
      var fine := CheckRow(rows.a[i], CASES[i]);
      if !fine {
        return false;
      }
    }
    return true;
  }

  // ----- Projection -----

  const FAILURES: set<string> := {"failure", "cleanupFailure", "childCleanupFailure"}

  predicate Complete(report: Json) {
    && report.Obj? && (forall k :: k in FAILURES ==> k !in report.o)
    && Get(report, "status") in {Str("passed"), Str("failed")}
    && var rows := Get(report, "cases");
    && rows.Arr? && |rows.a| == |CASES|
    && (forall i :: 0 <= i < |rows.a| ==>
          rows.a[i].Obj? && Get(rows.a[i], "passed").Bool? && Get(rows.a[i], "id") == Str(CASES[i]))
    && Same(Get(report, "cleanup"), CLEANED)
  }

  /** The value at a path of keys, each of which must be there. */
  function Find(j: Json, path: seq<string>): Option<Json> {
    if path == [] then Some(j) else if Has(j, path[0]) then Find(j.o[path[0]], path[1..]) else None
  }

  predicate FoundSame(report: Json, path: seq<string>, v: Json) {
    Find(report, path).Some? && Same(Find(report, path).value, v)
  }

  predicate SameAt(report: Json, path: seq<string>, other: seq<string>) {
    Find(report, path).Some? && Find(report, other).Some? && Same(Find(report, path).value, Find(report, other).value)
  }

  predicate OwnedProcess(report: Json) {
    && Find(report, ["connection"]) == Some(Str("owned-artifact"))
    && FoundSame(report, ["ownedProcess", "exitCode"], Int(0))
    && Find(report, ["ownedProcess", "stopped"]) == Some(Bool(true))
    && Find(report, ["ownedProcess", "listenersClosed"]) == Some(Bool(true))
    && SameAt(report, ["instance", "parentPid"], ["ownedProcess", "pid"])
    && FoundSame(report, ["instance", "wrongTokenStatus"], Int(403))
    && Find(report, ["instance", "profile"]) == Some(Str("strict"))
    && SameAt(report, ["artifact", "sha256"], ["build", "artifactSha256"])
    && FoundSame(report, ["build", "exitCode"], Int(0))
    && Find(report, ["runtimeSourceCommit"]).Some? && Find(report, ["build", "inputs"]).Some?
    && Find(report, ["configuration", "sha256"]).Some?
  }

  predicate OwnProject(report: Json) {
    && Find(report, ["project"]) == Some(Str("fireemu-35fe6"))
    && Find(report, ["projectNumber"]) == Some(Str("592603257417"))
    && Find(report, ["configurationUnchanged"]) == Some(Bool(true))
    && Find(report, ["configReadback", "sha256"]).Some?
  }

  /** When a report has a projection; `local` says which of the two targets it is for. */
  predicate Projects(env: Env, report: Json, local: bool) {
    && Complete(report)
    && Find(report, ["target"]) == Some(TargetOf(local)) && Find(report, ["acceptance"]) == Some(Str("candidate"))
    && FoundSame(report, ["probeInputs"], env.inputs)
    && ValidRows(Get(report, "cases"))
    && Find(report, ["recordedAt"]).Some? && Find(report, ["probeSourceCommit"]).Some?
    && (if local then OwnedProcess(report) else OwnProject(report))
  }

  function TargetOf(local: bool): Json {
    Str(if local then "local" else "production")
  }

  function At(report: Json, path: seq<string>): Json {
    var found := Find(report, path);
    if found.Some? then found.value else Null
  }

  function Projection(env: Env, report: Json, local: bool): Json {
    var listed := map["target" := TargetOf(local), "recordedAt" := At(report, ["recordedAt"]),
                      "cases" := At(report, ["cases"]),
                      "cleanup" := At(report, ["cleanup"]), "probeSourceCommit" := At(report, ["probeSourceCommit"]),
                      "privateReceiptSha256" := Str(env.f.digest(report))];
    if local then
      Obj(listed["artifactSha256" := At(report, ["artifact", "sha256"])]
                ["runtimeSourceCommit" := At(report, ["runtimeSourceCommit"])]
                ["runtimeInputsSha256" := Str(env.f.digest(At(report, ["build", "inputs"])))]
                ["configurationSha256" := At(report, ["configuration", "sha256"])]
                ["ownedProcessVerified" := Bool(true)])
    else
      Obj(listed["configurationSha256" := At(report, ["configReadback", "sha256"])])
  }

  const COPIED: seq<string> := ["target", "recordedAt", "cases", "cleanup", "probeSourceCommit"]

  lemma OneKey(report: Json, key: string)
    ensures Find(report, [key]) == if Has(report, key) then Some(report.o[key]) else None
  {
    if Has(report, key) {
      assert [key][1..] == [];
      assert Find(report.o[key], []) == Some(report.o[key]);
    }
  }

  /** The listed fields, copied one by one. */
  method CopyListed(report: Json) returns (result: map<string, Json>)
    requires report.Obj? && forall i :: 0 <= i < |COPIED| ==> COPIED[i] in report.o
    ensures result == map k | k in COPIED :: report.o[k]
  {
    result := map[];
    for i := 0 to |COPIED|
      invariant result == map k | k in COPIED[..i] :: report.o[k]
    {
      result := result[COPIED[i] := report.o[COPIED[i]]];
      assert COPIED[..i + 1] == COPIED[..i] + [COPIED[i]];
    }
    assert COPIED[..|COPIED|] == COPIED;
  }

  lemma CopiedAre(env: Env, report: Json, local: bool)
    requires Projects(env, report, local)
    ensures report.Obj? && forall i :: 0 <= i < |COPIED| ==> COPIED[i] in report.o
    ensures Get(report, "target") == TargetOf(local)
    ensures forall i :: 0 <= i < |COPIED| ==> At(report, [COPIED[i]]) == report.o[COPIED[i]]
  {
    hide ValidRows, OwnedProcess, OwnProject, Find;
    assert Has(report, "cleanup") && Has(report, "cases") by { CompleteHas(report); }
    forall i | 0 <= i < |COPIED|
      ensures COPIED[i] in report.o && At(report, [COPIED[i]]) == report.o[COPIED[i]]
    {
      OneKey(report, COPIED[i]);
    }
    OneKey(report, "target");
  }

  lemma CompleteHas(report: Json)
    requires Complete(report)
    ensures Has(report, "cleanup") && Has(report, "cases")
  {
  }

  /** `report[a][b]`, each of which must be there. */
  method LookUp(report: Json, a: string, b: string) returns (r: Option<Json>)
    ensures r == Find(report, [a, b])
  {
    assert [a, b][1..] == [b];
    if !report.Obj? || a !in report.o { return None; }
    OneKey(report.o[a], b);
    var inner := report.o[a];
    if !inner.Obj? || b !in inner.o { return None; }
    r := Some(inner.o[b]);
  }

  method LookUpOne(report: Json, a: string) returns (r: Option<Json>)
    ensures r == Find(report, [a])
  {
    OneKey(report, a);
    r := if report.Obj? && a in report.o then Some(report.o[a]) else None;
  }

  /** The process that the recorder started: it served the recorded artifact, and it is gone. */
  method CheckOwned(report: Json) returns (ok: bool)
    ensures ok <==> OwnedProcess(report)
  {
    hide Find, Same;
    var connection := LookUpOne(report, "connection");
    if connection != Some(Str("owned-artifact")) { return false; }
    var exit := LookUp(report, "ownedProcess", "exitCode");
    if exit.None? || !Same(exit.value, Int(0)) { return false; }
    var stopped := LookUp(report, "ownedProcess", "stopped");
    var closed := LookUp(report, "ownedProcess", "listenersClosed");
    if stopped != Some(Bool(true)) || closed != Some(Bool(true)) { return false; }
    var parent := LookUp(report, "instance", "parentPid");
    var pid := LookUp(report, "ownedProcess", "pid");
    if parent.None? || pid.None? || !Same(parent.value, pid.value) { return false; }
    var status := LookUp(report, "instance", "wrongTokenStatus");
    if status.None? || !Same(status.value, Int(403)) { return false; }
    var profile := LookUp(report, "instance", "profile");
    if profile != Some(Str("strict")) { return false; }
    var artifact := LookUp(report, "artifact", "sha256");
    var built := LookUp(report, "build", "artifactSha256");
    if artifact.None? || built.None? || !Same(artifact.value, built.value) { return false; }
    var code := LookUp(report, "build", "exitCode");
    if code.None? || !Same(code.value, Int(0)) { return false; }
    var commit := LookUpOne(report, "runtimeSourceCommit");
    var inputs := LookUp(report, "build", "inputs");
    var configuration := LookUp(report, "configuration", "sha256");
    ok := commit.Some? && inputs.Some? && configuration.Some?;
  }

  method CheckOwnProject(report: Json) returns (ok: bool)
    ensures ok <==> OwnProject(report)
  {
    hide Find;
    var project := LookUpOne(report, "project");
    var number := LookUpOne(report, "projectNumber");
    var unchanged_ := LookUpOne(report, "configurationUnchanged");
    var sha := LookUp(report, "configReadback", "sha256");
    ok := project == Some(Str("fireemu-35fe6")) && number == Some(Str("592603257417")) &&
      unchanged_ == Some(Bool(true)) && sha.Some?;
  }

  /** A report without a failure, with a row for every case, and with nothing left behind. */
  method CheckComplete(report: Json) returns (ok: bool)
    ensures ok <==> Complete(report)
  {
    hide Same;
    if !report.Obj? || "failure" in report.o || "cleanupFailure" in report.o || "childCleanupFailure" in report.o {
      return false;
    }
    var status, rows := Get(report, "status"), Get(report, "cases");
    if status != Str("passed") && status != Str("failed") { return false; }
    if !rows.Arr? || |rows.a| != |CASES| { return false; }
    for i := 0 to |rows.a|
      invariant forall k :: 0 <= k < i ==>
                  rows.a[k].Obj? && Get(rows.a[k], "passed").Bool? && Get(rows.a[k], "id") == Str(CASES[k])
    {
      if !rows.a[i].Obj? || !Get(rows.a[i], "passed").Bool? || Get(rows.a[i], "id") != Str(CASES[i]) { return false; }
    }
    ok := Same(Get(report, "cleanup"), Obj(map["uidAbsent" := Bool(true), "emailAbsent" := Bool(true)]));
  }

  /** The projection of a report, or a refusal. */
  method Project(env: Env, report: Json, local: bool) returns (r: Option<Json>)
    ensures r == if Projects(env, report, local) then Some(Projection(env, report, local)) else None
  {
    hide ValidRows, OwnedProcess, OwnProject, Complete, Find, Same;
    var ok := CheckComplete(report);
    var target := LookUpOne(report, "target");
    var acceptance := LookUpOne(report, "acceptance");
    if !ok || target != Some(Str(if local then "local" else "production")) || acceptance != Some(Str("candidate")) {
      return None;
    }
    var recorded := LookUpOne(report, "probeInputs");
    if recorded.None? || !Same(recorded.value, env.inputs) {
      return None;
    }
    ok := CheckRows(Get(report, "cases"));
    var date := LookUpOne(report, "recordedAt");
    var commit := LookUpOne(report, "probeSourceCommit");
    if !ok || date.None? || commit.None? {
      return None;
    }
    if local {
      ok := CheckOwned(report);
    } else {
      ok := CheckOwnProject(report);
    }
    if !ok {
      return None;
    }
    CopiedAre(env, report, local);
    var result := CopyListed(report);
    ListedAre(report, local, result);
    result := result["privateReceiptSha256" := Str(env.f.digest(report))];
    if local {
      result := result["artifactSha256" := At(report, ["artifact", "sha256"])];
      result := result["runtimeSourceCommit" := At(report, ["runtimeSourceCommit"])];
      result := result["runtimeInputsSha256" := Str(env.f.digest(At(report, ["build", "inputs"])))];
      result := result["configurationSha256" := At(report, ["configuration", "sha256"])];
      result := result["ownedProcessVerified" := Bool(true)];
    } else {
      result := result["configurationSha256" := At(report, ["configReadback", "sha256"])];
    }
    r := Some(Obj(result));
  }

  lemma ListedAre(report: Json, local: bool, result: map<string, Json>)
    requires report.Obj? && (forall i :: 0 <= i < |COPIED| ==> COPIED[i] in report.o)
    requires result == map k | k in COPIED :: report.o[k]
    requires Get(report, "target") == TargetOf(local)
    requires forall i :: 0 <= i < |COPIED| ==> At(report, [COPIED[i]]) == report.o[COPIED[i]]
    ensures result == map["target" := TargetOf(local), "recordedAt" := At(report, ["recordedAt"]),
                          "cases" := At(report, ["cases"]),
                          "cleanup" := At(report, ["cleanup"]),
                          "probeSourceCommit" := At(report, ["probeSourceCommit"])]
  {
    hide Find;
    assert COPIED[0] == "target";
    assert COPIED[0] in COPIED && COPIED[1] in COPIED && COPIED[2] in COPIED && COPIED[3] in COPIED &&
      COPIED[4] in COPIED;
  }

  // ----- Validation -----

  const SHARED: set<string> :=
    {"target", "recordedAt", "cases", "cleanup", "probeSourceCommit", "privateReceiptSha256", "configurationSha256"}
  const LOCAL_ONLY: set<string> := {"artifactSha256", "runtimeSourceCommit", "runtimeInputsSha256",
                                    "ownedProcessVerified"}

  function Expected(local: bool): set<string> {
    SHARED + if local then LOCAL_ONLY else {}
  }

  /** What a value must look like under a key with this ending. */
  predicate ShapedAs(key: string, v: Json) {
    (EndsWith(key, "Sha256") ==> Hex(v, 64)) && (EndsWith(key, "Commit") ==> Hex(v, 40))
  }

  predicate ValidReport(report: Json, local: bool) {
    && Keys(report, Expected(local)) && report.o["target"] == TargetOf(local)
    && Date(report.o["recordedAt"]) && Same(report.o["cleanup"], CLEANED)
    && (forall key :: key in Expected(local) ==> ShapedAs(key, report.o[key]))
    && (local ==> report.o["ownedProcessVerified"] == Bool(true))
    && ValidRows(report.o["cases"])
  }

  predicate ValidHead(env: Env, value: Json) {
    && Keys(value, {"schemaVersion", "acceptance", "probeInputs", "corpus", "local", "production"})
    && Same(value.o["schemaVersion"], Int(1)) && value.o["acceptance"] == Str("candidate")
    && Same(value.o["probeInputs"], env.inputs) && Same(value.o["corpus"], Corpus())
  }

  predicate Validates(env: Env, value: Json) {
    ValidHead(env, value) && ValidReport(value.o["local"], true) && ValidReport(value.o["production"], false)
  }

  method CheckShapes(report: Json, keys: set<string>) returns (ok: bool)
    requires Keys(report, keys)
    ensures ok <==> forall key :: key in keys ==> ShapedAs(key, report.o[key])
  {
    var rest := keys;
    while rest != {}
      invariant rest <= keys
      invariant forall key :: key in keys && key !in rest ==> ShapedAs(key, report.o[key])
      decreases |rest|
    {
      var key :| key in rest;
      if !ShapedAs(key, report.o[key]) {
        return false;
      }
      rest := rest - {key};
    }
    return true;
  }

  method CheckReport(report: Json, local: bool) returns (ok: bool)
    ensures ok <==> ValidReport(report, local)
  {
    hide ValidRows, ShapedAs, Same;
    if !(Keys(report, Expected(local)) && report.o["target"] == TargetOf(local)) {
      return false;
    }
    if !(Date(report.o["recordedAt"]) && Same(report.o["cleanup"], CLEANED)) {
      return false;
    }
    ok := CheckShapes(report, Expected(local));
    if ok && local {
      ok := report.o["ownedProcessVerified"] == Bool(true);
    }
    if ok {
      ok := CheckRows(report.o["cases"]);
    }
  }

  /** The validator: the head, then the local and the production report. */
  method Validate(env: Env, value: Json) returns (ok: bool)
    ensures ok <==> Validates(env, value)
  {
    hide ValidReport, Same, Corpus;
    if !value.Obj? || value.o.Keys != {"schemaVersion", "acceptance", "probeInputs", "corpus", "local", "production"} {
      return false;
    }
    if !Same(value.o["schemaVersion"], Int(1)) || value.o["acceptance"] != Str("candidate") {
      return false;
    }
    if !Same(value.o["probeInputs"], env.inputs) || !Same(value.o["corpus"], Corpus()) {
      return false;
    }
    ok := CheckReport(value.o["local"], true);
    if ok {
      ok := CheckReport(value.o["production"], false);
    }
  }

  /** The nine cases, and what the corpus of a bundle says. */
  lemma CorpusIs()
    ensures Keys(Corpus(), {"revision", "cases"}) && Get(Corpus(), "revision") == Int(1)
    ensures Get(Corpus(), "cases") == Arr([Str("signup"), Str("signin"), Str("lookup"), Str("wrong-password"),
                                           Str("unchanged-state"), Str("refresh"), Str("refreshed-lookup"),
                                             Str("delete"),
                                           Str("deleted-account-absent")])
  {
  }

  /**
   What a published row means, on both targets: it is of its case, and it passed if and only if
   all its checks hold, and then with status 200, or 400 where the wrong password is tried.
   */
  lemma PublishedRowMeans(env: Env, value: Json, target: string, i: nat)
    requires Validates(env, value) && target in {"local", "production"} && i < 9
    ensures var rows := Get(Get(value, target), "cases");
            && rows.Arr? && |rows.a| == 9
            && var row := rows.a[i];
            && Get(row, "id") == Get(Corpus(), "cases").a[i] && Get(row, "checks").Obj? && Get(row, "checks").o != map[]
            && (Get(row, "passed") == Bool(true) <==>
                forall k :: k in Get(row, "checks").o ==> Get(row, "checks").o[k] == Bool(true))
            && (Get(row, "passed") == Bool(true) ==> Get(row, "httpStatus") == Int(if i == 3 then 400 else 200))
  {
    hide Same, ShapedAs, Date;
    CorpusIs();
    var rows := Get(Get(value, target), "cases");
    assert ValidRows(rows);
    assert ValidRow(rows.a[i], CASES[i]);
    CheckedAtAll(i);
  }

  lemma CheckedAtAll(i: nat)
    requires i < 9
    ensures CASES[i] in CHECKS && CHECKS[CASES[i]] != {} && (CASES[i] == "wrong-password" <==> i == 3)
  {
    if i == 0 || i == 1 { assert "httpOk" in CHECKS[CASES[i]]; }
    if i == 5 { assert "httpOk" in CHECKS[CASES[i]]; }
  }

  // ----- The bundle validates -----

  function Bundle(inputs: Json, local: Json, production: Json): Json {
    Obj(map["schemaVersion" := Int(1), "acceptance" := Str("candidate"), "probeInputs" := inputs, "corpus" := Corpus(),
            "local" := local, "production" := production])
  }

  /** The dates, commits and digests of a report have the shape the validator wants. */
  predicate WellShaped(env: Env, report: Json, local: bool) {
    && Date(At(report, ["recordedAt"])) && Hex(At(report, ["probeSourceCommit"]), 40)
    && HexText(env.f.digest(report), 64)
    && (if local then
          && Hex(At(report, ["artifact", "sha256"]), 64) && Hex(At(report, ["runtimeSourceCommit"]), 40)
          && HexText(env.f.digest(At(report, ["build", "inputs"])), 64)
          && Hex(At(report, ["configuration", "sha256"]), 64)
        else Hex(At(report, ["configReadback", "sha256"]), 64))
  }

  const DIGESTS: set<string> :=
    {"privateReceiptSha256", "configurationSha256", "artifactSha256", "runtimeInputsSha256"}
  const COMMITS: set<string> := {"probeSourceCommit", "runtimeSourceCommit"}

  lemma EndOf(key: string, end: string)
    requires EndsWith(key, end) && |end| >= 2
    ensures key[|key| - 1] == end[|end| - 1] && key[|key| - 2] == end[|end| - 2]
  {
    assert key[|key| - |end|..][|end| - 1] == key[|key| - 1] && key[|key| - |end|..][|end| - 2] == key[|key| - 2];
  }

  lemma EndIs(key: string, stem: string, end: string)
    requires key == stem + end
    ensures EndsWith(key, end)
  {
  }

  lemma DigestsEnd(key: string)
    requires key in DIGESTS
    ensures EndsWith(key, "Sha256")
  {
    if key == "privateReceiptSha256" {
      EndIs(key, "privateReceipt", "Sha256");
    } else if key == "configurationSha256" {
      EndIs(key, "configuration", "Sha256");
    } else if key == "artifactSha256" {
      EndIs(key, "artifact", "Sha256");
    } else {
      EndIs(key, "runtimeInputs", "Sha256");
    }
  }

  lemma CommitsEnd(key: string)
    requires key in COMMITS
    ensures EndsWith(key, "Commit")
  {
    if key == "probeSourceCommit" {
      EndIs(key, "probeSource", "Commit");
    } else {
      EndIs(key, "runtimeSource", "Commit");
    }
  }

  lemma DigestEnding(key: string)
    requires key in Expected(true)
    ensures EndsWith(key, "Sha256") <==> key in DIGESTS
  {
    hide EndsWith;
    if key in DIGESTS {
      DigestsEnd(key);
    } else if EndsWith(key, "Sha256") {
      EndOf(key, "Sha256");
    }
  }

  lemma CommitEnding(key: string)
    requires key in Expected(true)
    ensures EndsWith(key, "Commit") <==> key in COMMITS
  {
    hide EndsWith;
    if key in COMMITS {
      CommitsEnd(key);
    } else if EndsWith(key, "Commit") {
      EndOf(key, "Commit");
    }
  }

  /** Which of the expected keys end in which way. */
  lemma Endings(key: string, local: bool)
    requires key in Expected(local)
    ensures EndsWith(key, "Sha256") <==> key in DIGESTS
    ensures EndsWith(key, "Commit") <==> key in COMMITS
  {
    DigestEnding(key);
    CommitEnding(key);
  }

  lemma ShapesAre(report: Json, local: bool)
    requires Keys(report, Expected(local))
    ensures (forall key :: key in Expected(local) ==> ShapedAs(key, report.o[key])) <==>
              && (forall key :: key in DIGESTS && key in Expected(local) ==> Hex(report.o[key], 64))
              && (forall key :: key in COMMITS && key in Expected(local) ==> Hex(report.o[key], 40))
  {
    hide EndsWith, Hex;
    forall key | key in Expected(local)
      ensures ShapedAs(key, report.o[key]) <==>
              (key in DIGESTS ==> Hex(report.o[key], 64)) && (key in COMMITS ==> Hex(report.o[key], 40))
    {
      Endings(key, local);
    }
  }

  lemma LocalDigests()
    ensures forall key :: key in DIGESTS ==> key in Expected(true)
    ensures forall key :: key in COMMITS ==> key in Expected(true)
    ensures forall key :: key in DIGESTS && key in Expected(false) <==>
              key in {"privateReceiptSha256", "configurationSha256"}
    ensures forall key :: key in COMMITS && key in Expected(false) <==> key == "probeSourceCommit"
  {
  }

  lemma ProjectedKeys(env: Env, report: Json, local: bool)
    ensures Keys(Projection(env, report, local), Expected(local))
  {
    hide Find;
  }

  /** A projection field by field. */
  lemma ProjectionParts(env: Env, report: Json, local: bool)
    ensures var p := Projection(env, report, local);
            && Keys(p, Expected(local))
            && p.o["target"] == TargetOf(local) && p.o["recordedAt"] == At(report, ["recordedAt"])
            && p.o["cases"] == At(report, ["cases"]) && p.o["cleanup"] == At(report, ["cleanup"])
            && p.o["probeSourceCommit"] == At(report, ["probeSourceCommit"])
            && p.o["privateReceiptSha256"] == Str(env.f.digest(report))
            && p.o["configurationSha256"] ==
              At(report, if local then ["configuration", "sha256"] else ["configReadback", "sha256"])
    ensures local ==> var p := Projection(env, report, local);
              && p.o["artifactSha256"] == At(report, ["artifact", "sha256"])
              && p.o["runtimeSourceCommit"] == At(report, ["runtimeSourceCommit"])
              && p.o["ownedProcessVerified"] == Bool(true)
              && p.o["runtimeInputsSha256"] == Str(env.f.digest(At(report, ["build", "inputs"])))
  {
    hide At;
    ProjectedKeys(env, report, local);
  }

  /** A projection is a valid report if and only if the report's fields are well shaped. */
  lemma ProjectionValidates(env: Env, report: Json, local: bool)
    requires Projects(env, report, local)
    ensures ValidReport(Projection(env, report, local), local) <==> WellShaped(env, report, local)
  {
    hide ValidRows, OwnedProcess, OwnProject, HexText, Find, At, Same, ShapedAs, Date, Projects, Projection, Expected;
    ProjectionParts(env, report, local);
    ProjectedRows(env, report, local);
    ShapesAre(Projection(env, report, local), local);
    LocalDigests();
  }

  lemma ProjectedRows(env: Env, report: Json, local: bool)
    requires Projects(env, report, local)
    ensures ValidRows(At(report, ["cases"])) && Same(At(report, ["cleanup"]), CLEANED)
  {
    hide ValidRows, OwnedProcess, OwnProject, Same;
    CompleteHas(report);
    OneKey(report, "cases");
    OneKey(report, "cleanup");
  }

  /**
   The bundle of two projections validates if and only if the recorder's inputs are still the
   same and both reports have well-shaped dates, commits and digests.
   */
  lemma BundleValidates(first: Env, second: Env, bundled: Json, validated: Env, local: Json, production: Json)
    requires Projects(first, local, true) && Projects(second, production, false)
    ensures Validates(validated,
                      Bundle(bundled, Projection(first, local, true), Projection(second, production, false))) <==>
              Same(bundled, validated.inputs) && WellShaped(first, local, true) && WellShaped(second, production, false)
  {
    hide Projects, Projection, ValidReport, WellShaped, Same, Corpus;
    ProjectionValidates(first, local, true);
    ProjectionValidates(second, production, false);
    SameReflexive(Int(1));
    SameReflexive(Corpus());
    BundleParts(bundled, Projection(first, local, true), Projection(second, production, false));
    hide Bundle;
  }

  lemma BundleParts(inputs: Json, local: Json, production: Json)
    ensures var value := Bundle(inputs, local, production);
            && Keys(value, {"schemaVersion", "acceptance", "probeInputs", "corpus", "local", "production"})
            && value.o["schemaVersion"] == Int(1) && value.o["acceptance"] == Str("candidate")
            && value.o["probeInputs"] == inputs
            && value.o["corpus"] == Corpus() && value.o["local"] == local && value.o["production"] == production
  {
    hide Corpus;
  }

  // ----- The projection reads listed fields only -----

  /** Fields read in full; the failures and the build inputs are looked for only. */
  const LISTED: seq<seq<string>> :=
    [["status"], ["cases"], ["cleanup"], ["target"], ["acceptance"], ["probeInputs"], ["recordedAt"],
     ["probeSourceCommit"]]
  const LISTED_LOCAL: seq<seq<string>> :=
    [["connection"], ["ownedProcess", "exitCode"], ["ownedProcess", "stopped"], ["ownedProcess", "listenersClosed"],
     ["ownedProcess", "pid"], ["instance", "parentPid"], ["instance", "wrongTokenStatus"], ["instance", "profile"],
     ["artifact", "sha256"], ["build", "artifactSha256"], ["build", "exitCode"], ["runtimeSourceCommit"],
     ["configuration", "sha256"]]
  const LISTED_PRODUCTION: seq<seq<string>> :=
    [["project"], ["projectNumber"], ["configurationUnchanged"], ["configReadback", "sha256"]]

  predicate AgreeOn(x: Json, y: Json, paths: seq<seq<string>>) {
    forall i :: 0 <= i < |paths| ==> Find(x, paths[i]) == Find(y, paths[i])
  }

  predicate Agree(x: Json, y: Json, local: bool) {
    && x.Obj? && y.Obj? && (forall k :: k in FAILURES ==> (k in x.o <==> k in y.o))
    && AgreeOn(x, y, LISTED) && AgreeOn(x, y, if local then LISTED_LOCAL else LISTED_PRODUCTION)
    && (local ==> Find(x, ["build", "inputs"]).Some? == Find(y, ["build", "inputs"]).Some?)
  }

  predicate EqualBut(x: Json, y: Json, keys: set<string>) {
    x.Obj? && y.Obj? && x.o.Keys == y.o.Keys && forall k :: k in x.o && k !in keys ==> x.o[k] == y.o[k]
  }

  lemma GetIsFound(x: Json, y: Json, key: string)
    requires Find(x, [key]) == Find(y, [key])
    ensures Get(x, key) == Get(y, key)
  {
    OneKey(x, key);
    OneKey(y, key);
  }

  lemma AgreeComplete(x: Json, y: Json, local: bool)
    requires Agree(x, y, local)
    ensures Complete(x) == Complete(y) && Get(x, "cases") == Get(y, "cases")
  {
    hide Find, Same;
    assert Find(x, LISTED[0]) == Find(y, LISTED[0]) && Find(x, LISTED[1]) == Find(y, LISTED[1]) &&
      Find(x, LISTED[2]) == Find(y, LISTED[2]);
    GetIsFound(x, y, "status");
    GetIsFound(x, y, "cases");
    GetIsFound(x, y, "cleanup");
  }

  lemma AgreeOwned(x: Json, y: Json)
    requires Agree(x, y, true)
    ensures OwnedProcess(x) == OwnedProcess(y)
  {
    hide Find, Same;
    var l := LISTED_LOCAL;
    assert Find(x, l[0]) == Find(y, l[0]) && Find(x, l[1]) == Find(y, l[1]) && Find(x, l[2]) == Find(y, l[2]);
    assert Find(x, l[3]) == Find(y, l[3]) && Find(x, l[4]) == Find(y, l[4]) && Find(x, l[5]) == Find(y, l[5]);
    assert Find(x, l[6]) == Find(y, l[6]) && Find(x, l[7]) == Find(y, l[7]) && Find(x, l[8]) == Find(y, l[8]);
    assert Find(x, l[9]) == Find(y, l[9]) && Find(x, l[10]) == Find(y, l[10]) && Find(x, l[11]) == Find(y, l[11]);
    assert Find(x, l[12]) == Find(y, l[12]);
  }

  lemma AgreeProject(x: Json, y: Json)
    requires Agree(x, y, false)
    ensures OwnProject(x) == OwnProject(y)
  {
    hide Find, Same;
    var l := LISTED_PRODUCTION;
    assert Find(x, l[0]) == Find(y, l[0]) && Find(x, l[1]) == Find(y, l[1]) && Find(x, l[2]) == Find(y, l[2]) &&
      Find(x, l[3]) == Find(y, l[3]);
  }

  lemma AgreeListed(x: Json, y: Json, local: bool)
    requires Agree(x, y, local)
    ensures forall path :: path in LISTED ==> Find(x, path) == Find(y, path)
    ensures local ==> forall path :: path in LISTED_LOCAL ==> Find(x, path) == Find(y, path)
    ensures !local ==> forall path :: path in LISTED_PRODUCTION ==> Find(x, path) == Find(y, path)
  {
    hide Find;
  }

  lemma Listed()
    ensures ["target"] in LISTED && ["acceptance"] in LISTED && ["probeInputs"] in LISTED && ["recordedAt"] in LISTED
    ensures ["probeSourceCommit"] in LISTED && ["cases"] in LISTED && ["cleanup"] in LISTED
    ensures ["artifact", "sha256"] in LISTED_LOCAL && ["runtimeSourceCommit"] in LISTED_LOCAL &&
            ["configuration", "sha256"] in LISTED_LOCAL
    ensures ["configReadback", "sha256"] in LISTED_PRODUCTION
  {
    assert LISTED[1] == ["cases"] && LISTED[2] == ["cleanup"] && LISTED[3] == ["target"] && LISTED[4] == ["acceptance"];
    assert LISTED[5] == ["probeInputs"] && LISTED[6] == ["recordedAt"] && LISTED[7] == ["probeSourceCommit"];
    assert LISTED_LOCAL[8] == ["artifact", "sha256"] && LISTED_LOCAL[11] == ["runtimeSourceCommit"];
    assert LISTED_LOCAL[12] == ["configuration", "sha256"] && LISTED_PRODUCTION[3] == ["configReadback", "sha256"];
  }

  lemma AgreeProjects(env: Env, x: Json, y: Json, local: bool)
    requires Agree(x, y, local)
    ensures Projects(env, x, local) <==> Projects(env, y, local)
  {
    hide Find, Same, ValidRows, OwnedProcess, OwnProject, Complete, LISTED, LISTED_LOCAL, LISTED_PRODUCTION;
    AgreeComplete(x, y, local);
    if local { AgreeOwned(x, y); } else { AgreeProject(x, y); }
    AgreeListed(x, y, local);
    Listed();
  }

  /**
   Two reports that agree on the listed fields are both projected or both refused, and their
   projections differ in no field but the digests of the whole report and of the build inputs.
   */
  lemma ProjectionHidesTheRest(env: Env, x: Json, y: Json, local: bool)
    requires Agree(x, y, local)
    ensures Projects(env, x, local) <==> Projects(env, y, local)
    ensures EqualBut(Projection(env, x, local), Projection(env, y, local),
                     {"privateReceiptSha256", "runtimeInputsSha256"})
  {
    hide Find, Projects, Projection, LISTED, LISTED_LOCAL, LISTED_PRODUCTION;
    AgreeProjects(env, x, y, local);
    AgreeListed(x, y, local);
    Listed();
    hide Agree;
    ProjectionParts(env, x, local);
    ProjectionParts(env, y, local);
  }
}
