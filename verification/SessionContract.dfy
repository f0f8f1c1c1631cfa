/**
 The bounded response and timing contract of one session-v2 observation
 (tools/auth-session-v2/session_v2_contract.py): what a recorded row may say of its case.
 A check that raises in the source is a check that is false here.
 */
module SessionContract {
  import opened Common
  import opened Json

  const DEADLINE_MS := 45000
  const FAR_FUTURE := 32503680000
  const BUDGET_MS := 600000

  datatype Lane = AId | ARefresh | BId | BRefresh | ChangedId | ChangedRefresh

  datatype Case =
    | Signup | SigninA | SigninB
    | AIdBaseline | ARefreshBaseline1 | ARefreshBaseline2
    | BIdBaseline | BRefreshBaseline1 | BRefreshBaseline2
    | ChangePassword
    | Sample(lane: Lane, round: nat)
    | NewPasswordSignin | NewPasswordLookup | MalformedRefresh | UnknownRefresh
    | Delete | DeletedAccountAbsent

  datatype Kind = Token | Refresh | Lookup | Deletion | Absence

  const ROUNDS := 3

  function Offset(round: nat): int {
    if round == 0 then 0 else if round == 1 then 10000 else 30000
  }

  function OffsetText(round: nat): string {
    if round == 0 then "0" else if round == 1 then "10000" else "30000"
  }

  function LaneText(lane: Lane): string {
    match lane
    case AId => "a-id"
    case ARefresh => "a-refresh"
    case BId => "b-id"
    case BRefresh => "b-refresh"
    case ChangedId => "changed-id"
    case ChangedRefresh => "changed-refresh"
  }

  function Text(c: Case): string {
    match c
    case Signup => "signup"
    case SigninA => "signin-a"
    case SigninB => "signin-b"
    case AIdBaseline => "a-id-baseline"
    case ARefreshBaseline1 => "a-refresh-baseline-1"
    case ARefreshBaseline2 => "a-refresh-baseline-2"
    case BIdBaseline => "b-id-baseline"
    case BRefreshBaseline1 => "b-refresh-baseline-1"
    case BRefreshBaseline2 => "b-refresh-baseline-2"
    case ChangePassword => "change-password"
    case Sample(lane, round) => LaneText(lane) + "@" + OffsetText(round)
    case NewPasswordSignin => "new-password-signin"
    case NewPasswordLookup => "new-password-lookup"
    case MalformedRefresh => "malformed-refresh"
    case UnknownRefresh => "unknown-refresh"
    case Delete => "delete"
    case DeletedAccountAbsent => "deleted-account-absent"
  }

  function Round(round: nat): seq<Case> {
    [Sample(AId, round), Sample(ARefresh, round), Sample(BId, round),
     Sample(BRefresh, round), Sample(ChangedId, round), Sample(ChangedRefresh, round)]
  }

  const BASELINES: seq<Case> :=
    [Signup, SigninA, SigninB, AIdBaseline, ARefreshBaseline1, ARefreshBaseline2,
     BIdBaseline, BRefreshBaseline1, BRefreshBaseline2, ChangePassword]

  const CONTROLS: seq<Case> :=
    [NewPasswordSignin, NewPasswordLookup, MalformedRefresh, UnknownRefresh, Delete, DeletedAccountAbsent]

  /** The thirty-four cases in the order in which they are recorded. */
  const CASES: seq<Case> := BASELINES + Round(0) + Round(1) + Round(2) + CONTROLS

  predicate RefreshLane(lane: Lane) {
    lane == ARefresh || lane == BRefresh || lane == ChangedRefresh
  }

  predicate ChangedLane(lane: Lane) {
    lane == ChangedId || lane == ChangedRefresh
  }

  function KindOf(c: Case): Kind {
    match c
    case Signup => Token
    case SigninA => Token
    case SigninB => Token
    case ChangePassword => Token
    case NewPasswordSignin => Token
    case ARefreshBaseline1 => Refresh
    case ARefreshBaseline2 => Refresh
    case BRefreshBaseline1 => Refresh
    case BRefreshBaseline2 => Refresh
    case MalformedRefresh => Refresh
    case UnknownRefresh => Refresh
    case Sample(lane, _) => if RefreshLane(lane) then Refresh else Lookup
    case Delete => Deletion
    case DeletedAccountAbsent => Absence
    case _ => Lookup
  }

  // ----- One response -----

  const AUTH_ERRORS: set<string> :=
    {"TOKEN_EXPIRED", "INVALID_ID_TOKEN", "INVALID_REFRESH_TOKEN", "USER_NOT_FOUND", "USER_DISABLED", "INVALID_GRANT"}

  const ACCEPTED := Str("accepted")
  const REJECTED := Str("auth-rejected")
  const UNEXPECTED := Str("unexpected")
  const TRANSPORT_FAILURE := Str("transport-failure")
  const NOT_SAMPLED := Str("not-sampled")

  const OBSERVED := Str("observed")
  const INCONCLUSIVE := Str("inconclusive")
  const LATE := Str("late")

  const TOKEN_CHECKS: set<string> :=
    {"noError", "idTokenPresent", "refreshTokenPresent", "uidMatches", "expiryIsPositiveInteger",
     "expiryMatchesOneHour", "tokenTimeValid"}

  function ChecksFor(kind: Kind): set<string> {
    match kind
    case Token => TOKEN_CHECKS + {"emailMatches"}
    case Refresh => TOKEN_CHECKS + {"bearerType"}
    case Lookup => {"noError", "oneUser", "uidMatches", "emailMatches"}
    case Absence => {"uidAbsent", "emailAbsent"}
    case Deletion => {"noError"}
  }

  predicate AllTrue(checks: Json) {
    checks.Obj? && forall k :: k in checks.o ==> IsTrue(checks.o[k])
  }

  function Classify(status: Json, checks: Json, error: Json): Json {
    if status == Int(200) && AllTrue(checks) then ACCEPTED
    else if status == Int(400) && error.Str? && error.s in AUTH_ERRORS then REJECTED
    else UNEXPECTED
  }

  /** A positive number of up to six digits without a leading zero. */
  predicate Expiry(j: Json) {
    j.Str? && 1 <= |j.s| <= 6 && '1' <= j.s[0] <= '9' && Digits(j.s)
  }

  predicate ValidTokenTime(j: Json) {
    || j.Null?
    || (&& Keys(j, {"iat", "authTime"})
        && Within(j.o["iat"], 0, FAR_FUTURE) && Within(j.o["authTime"], 0, FAR_FUTURE)
        && j.o["authTime"].n <= j.o["iat"].n)
  }

  predicate HasTokens(kind: Kind) {
    kind == Token || kind == Refresh
  }

  function Extra(kind: Kind): set<string> {
    if HasTokens(kind) then {"expirySeconds", "tokenTime"} else if kind == Lookup then {"validSince"} else {}
  }

  predicate ValidOutcome(row: Json)
    requires row.Obj? && {"httpStatus", "outcome", "error", "checks"} <= row.o.Keys
  {
    var status, outcome, error, checks := row.o["httpStatus"], row.o["outcome"], row.o["error"], row.o["checks"];
    && outcome in {ACCEPTED, REJECTED, UNEXPECTED, TRANSPORT_FAILURE, NOT_SAMPLED}
    && (error.Null? || (error.Str? && error.s in AUTH_ERRORS + {"OTHER"}))
    && checks.Obj? && (forall k :: k in checks.o ==> checks.o[k].Bool?)
    && (if outcome == TRANSPORT_FAILURE || outcome == NOT_SAMPLED
        then status.Null? && error.Null? && (forall k :: k in checks.o ==> checks.o[k] == Bool(false))
        else Within(status, 100, 599) && outcome == Classify(status, checks, error))
    && ("noError" in checks.o && !status.Null? ==> checks.o["noError"] == Bool(error.Null?))
  }

  predicate ValidResponse(row: Json, kind: Kind) {
    && Keys(row, {"httpStatus", "outcome", "error", "checks"} + Extra(kind))
    && ValidOutcome(row)
    && row.o["checks"].o.Keys == ChecksFor(kind)
    && (HasTokens(kind) ==>
          var seconds, time, checks := row.o["expirySeconds"], row.o["tokenTime"], row.o["checks"].o;
          && (seconds.Null? || Expiry(seconds))
          && checks["expiryIsPositiveInteger"] == Bool(!seconds.Null?)
          && checks["expiryMatchesOneHour"] == Bool(seconds == Str("3600"))
          && ValidTokenTime(time)
          && checks["tokenTimeValid"] == Bool(!time.Null?))
    && (kind == Lookup ==> row.o["validSince"].Null? || Within(row.o["validSince"], 0, FAR_FUTURE))
  }

  // ----- One row -----

  function SampleQuality(primary: Json, follow: Json, start: int, end: int, target: int, lane: Lane): Json {
    var outcome, next := Get(primary, "outcome"), Get(follow, "outcome");
    if outcome != ACCEPTED && outcome != REJECTED then INCONCLUSIVE
    else if RefreshLane(lane) && outcome == ACCEPTED &&
      (follow.Null? || (next != ACCEPTED && next != REJECTED)) then INCONCLUSIVE
    else if ChangedLane(lane) &&
      (outcome != ACCEPTED || (RefreshLane(lane) && (follow.Null? || next != ACCEPTED))) then INCONCLUSIVE
    else if start < target || start - target > 2000 || end > DEADLINE_MS then LATE
    else OBSERVED
  }

  function InvalidControlQuality(response: Json): Json {
    if Get(response, "httpStatus") == Int(400) && Get(response, "outcome") == REJECTED
       && Get(response, "error") == Str("INVALID_REFRESH_TOKEN")
    then OBSERVED else INCONCLUSIVE
  }

  /** The quality a row of the case must be given. */
  function ExpectedQuality(row: Json, c: Case): Json
    requires row.Obj? && ROW <= row.o.Keys && row.o["startMs"].Int? && row.o["endMs"].Int?
  {
    var response, follow := row.o["response"], row.o["followup"];
    match c
    case Sample(lane, round) =>
      SampleQuality(response, follow, row.o["startMs"].n, row.o["endMs"].n, Offset(round), lane)
    case MalformedRefresh => InvalidControlQuality(response)
    case UnknownRefresh => InvalidControlQuality(response)
    case _ =>
      if Get(response, "outcome") == ACCEPTED && (KindOf(c) != Refresh || Get(follow, "outcome") == ACCEPTED)
      then OBSERVED else INCONCLUSIVE
  }

  const ROW: set<string> :=
    {"id", "response", "followup", "rotated", "startMs", "primaryEndMs", "endMs", "followupStartMs",
     "followupEndMs", "credentialUnchanged", "quality"}

  /** The row's three instants are in order and within the budget. */
  predicate ValidInterval(row: Json)
    requires row.Obj? && ROW <= row.o.Keys
  {
    var start, primary, end := row.o["startMs"], row.o["primaryEndMs"], row.o["endMs"];
    && Within(start, 0, BUDGET_MS) && Within(end, start.n, BUDGET_MS) && Within(primary, start.n, end.n)
  }

  predicate ValidFollowup(row: Json, kind: Kind)
    requires row.Obj? && ROW <= row.o.Keys && ValidInterval(row)
  {
    var follow, from, to := row.o["followup"], row.o["followupStartMs"], row.o["followupEndMs"];
    if follow.Null? then from.Null? && to.Null? && row.o["primaryEndMs"].n == row.o["endMs"].n
    else
      && kind == Refresh && Get(row.o["response"], "outcome") == ACCEPTED
      && ValidResponse(follow, Lookup)
      && Within(from, row.o["primaryEndMs"].n, row.o["endMs"].n)
      && Within(to, from.n, row.o["endMs"].n) && to.n == row.o["endMs"].n
  }

  predicate MayStart(j: Json) {
    Within(j, 0, DEADLINE_MS - 1)
  }

  predicate ValidSampling(row: Json, c: Case)
    requires row.Obj? && ROW <= row.o.Keys && ValidInterval(row)
  {
    c.Sample? ==>
      && (Get(row.o["response"], "outcome") != NOT_SAMPLED ==>
            MayStart(row.o["startMs"]) && row.o["startMs"].n >= Offset(c.round))
      && (!row.o["followup"].Null? && Get(row.o["followup"], "outcome") != NOT_SAMPLED ==>
            MayStart(row.o["followupStartMs"]))
  }

  predicate ValidCase(row: Json, c: Case) {
    && Keys(row, ROW)
    && row.o["id"] == Str(Text(c)) && IsTrue(row.o["credentialUnchanged"])
    && ValidInterval(row)
    && ValidResponse(row.o["response"], KindOf(c))
    && ValidFollowup(row, KindOf(c))
    && (if KindOf(c) == Refresh && row.o["response"].o["outcome"] == ACCEPTED
        then row.o["rotated"].Bool? else row.o["rotated"].Null?)
    && ValidSampling(row, c)
    && row.o["quality"] == ExpectedQuality(row, c)
  }

  // ----- One report -----

  predicate CleanedUp(report: Json) {
    && Keys(Get(report, "cleanup"), {"uidAbsent", "emailAbsent"})
    && AllTrue(Get(report, "cleanup"))
  }

  predicate ValidRows(report: Json) {
    && Get(report, "cases").Arr? && |Get(report, "cases").a| == |CASES|
    && forall i :: 0 <= i < |CASES| ==> ValidCase(Get(report, "cases").a[i], CASES[i])
  }

  predicate AllObserved(report: Json) {
    Get(report, "cases").Arr? && forall i :: 0 <= i < |Get(report, "cases").a| ==>
                                   Get(Get(report, "cases").a[i], "quality") == OBSERVED
  }

  /** A report without a failure whose status sums up the quality of its rows. */
  predicate Complete(report: Json) {
    && report.Obj?
    && "failure" !in report.o && "cleanupFailure" !in report.o && "childCleanupFailure" !in report.o
    && CleanedUp(report) && ValidRows(report)
    && Get(report, "status") == (if AllObserved(report) then OBSERVED else INCONCLUSIVE)
  }
}
