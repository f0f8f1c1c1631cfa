/**
 The conditional-lock probe (conformance/functions/index.js) over the document store: any
 number of requests, each an asynchronous handler, interleaved with each other and with
 every other client of the store. One action is one step between two awaits of a handler.

 Assumed of the surroundings: the acknowledgement of a commit reaches the handler, and nobody
 but the handlers writes the lock and the actions documents. Everything else about the other
 clients is free, including the context document and locks held on anything they read.
 */
module LockProtocol {
  import opened Common
  import opened Texts
  import opened Store
  import opened Sessions
  import opened LockAuth

  const CONTEXT: Path := "conf_fn_lock/context"
  const LOCK: Path := "conf_fn_lock/lock"
  const ACTIONS: Path := "conf_fn_lock/actions"

  // ----- Documents -----

  datatype Failure =
    | FixturesMissing
    | BadConfiguration
    | LatchFailed
    | StartIsNoTimestamp
    | TimestampsDiffer
    | StoreFailure

  datatype Config = Config(port: int, token: string, millis: int)

  function Field(fields: Fields, name: string): Value {
    if name in fields then fields[name] else Null
  }

  function ParseContext(context: Option<Document>): Result<Config, Failure> {
    if context.None? || Field(context.value.fields, "enabled") != Bool(true) then Err(FixturesMissing)
    else
      var port := Field(context.value.fields, "barrierPort");
      var token := Field(context.value.fields, "barrierToken");
      var millis := Field(context.value.fields, "protectedPhaseMillis");
      if port.Integer? && 1 <= port.n <= 65535 && token.Text? && WellFormed(token.s)
         && millis.Integer? && 0 <= millis.n <= 10_000
      then Ok(Config(port.n, token.s, millis.n))
      else Err(BadConfiguration)
  }

  predicate IsLocked(lock: Fields) {
    Field(lock, "locked") == Bool(true)
  }

  predicate Locked(lock: Option<Document>) {
    lock.Some? && IsLocked(lock.value.fields)
  }

  function AcquireWrites(participant: int): seq<Write> {
    [Write(Set(LOCK, map["locked" := Bool(true), "owner" := Integer(participant)], Some({"locked", "owner"})),
           Exists(true),
           [Transform("startedAt", ServerTimestamp), Transform("updatedAt", ServerTimestamp)])]
  }

  function CountWrites(): seq<Write> {
    [Write(Set(ACTIONS, map[], Some({})), Exists(true), [Transform("count", Increment(Integer(1)))])]
  }

  function ReleaseWrites(): seq<Write> {
    [Write(Set(LOCK, map["locked" := Bool(false)], Some({"locked"})), Exists(true), [])]
  }

  // ----- Handlers -----

  datatype Reply =
    | BadParticipant
    | NoCredential
    | WrongCredential
    | Result(acquired: bool, attempts: nat, observations: seq<bool>)

  function Status(r: Reply): int {
    match r
    case BadParticipant => 400
    case NoCredential => 403
    case WrongCredential => 403
    case Result(acquired, _, _) => if acquired then 200 else 409
  }

  datatype Phase =
    | Ready
    | Begun                                        // the callback runs; the context is read next
    | Authorized(config: Config)                   // the context is read; the lock is read next
    | Observed(config: Config, lock: Fields)       // the lock is read and its state pushed
    | Decided(acquired: bool)                      // the callback returned; its commit is next
    | Unauthorized                                 // the callback returned without authorization
    | Aborted                                      // the attempt failed and may be retried
    | Holding                                      // acquired; the counter is next
    | Counted                                      // counted; the protected phase and the release are next
    | Released
    | Refusing                                     // the lock was held; the 409 is next
    | Forbidding
    | Replied(reply: Reply)
    | Thrown(failure: Failure)
    | Stranded(counted: bool)                      // failed or crashed between acquire and release

  /** `snapshotAt` is where the trace shows the attempt's first read, `lockVersion` what it read the lock at. */
  datatype Handler = Handler(
    participant: int,
    presented: string,
    attempts: nat,
    observations: seq<bool>,
    tx: TxId,
    snapshotAt: nat,
    lockVersion: nat,
    phase: Phase)

  datatype Event =
    | Snapshot(request: nat, attempt: nat, context: Option<Document>)
    | Looked(request: nat, attempt: nat, locked: bool, version: nat)
    | Latched(request: nat)
    | Acquired(request: nat, attempt: nat, lockVersion: nat, context: Option<Document>)
    | Freed(request: nat)

  datatype World = World(session: Session, handlers: seq<Handler>, trace: seq<Event>)

  datatype Action =
    | Arrive(participant: Option<int>, header: Option<string>)
    | Attempt(request: nat, now: int)
    | ReadContext(request: nat, now: int)
    | ReadLock(request: nat, now: int)
    | Proceed(request: nat, latchOpens: bool)
    | TryCommit(request: nat, givesUp: bool, now: int)
    | Count(request: nat, now: int)
    | Release(request: nat, now: int)
    | Answer(request: nat)
    | Fail(request: nat)
    | Others(step: Sessions.Request)

  function Put(w: World, r: nat, h: Handler): World
    requires r < |w.handlers|
  {
    w.(handlers := w.handlers[r := h])
  }

  function Enter(w: World, r: nat, phase: Phase): World
    requires r < |w.handlers|
  {
    Put(w, r, w.handlers[r].(phase := phase))
  }

  function DoArrive(w: World, participant: Option<int>, header: Option<string>): World {
    var presented := BearerToken(header);
    var phase :=
      if participant != Some(0) && participant != Some(1) then Replied(BadParticipant)
      else if presented.None? then Replied(NoCredential)
      else Ready;
    var h := Handler(if participant.Some? then participant.value else 0,
                     if presented.Some? then presented.value else "", 0, [], 0, 0, 0, phase);
    w.(handlers := w.handlers + [h])
  }

  /**
   How a request is received: refused with 400 unless the participant is 0 or 1, then with 403
   unless the header is the scheme and 32 hexadecimal digits, and else ready with those digits.
   */
  lemma ArrivalIff(w: World, participant: Option<int>, header: Option<string>)
    ensures var w' := DoArrive(w, participant, header);
            var h := w'.handlers[|w.handlers|];
            var known := participant == Some(0) || participant == Some(1);
            && |w'.handlers| == |w.handlers| + 1 && w'.handlers[..|w.handlers|] == w.handlers && w'.session == w.session
            && (h.phase.Replied? && Status(h.phase.reply) == 400 <==> !known)
            && (h.phase.Replied? && Status(h.phase.reply) == 403 <==>
                  known && forall t :: !(header == Some("Bearer " + t) && HexText(t, 32)))
            && (forall t :: known && header == Some("Bearer " + t) && HexText(t, 32) ==>
                  h.phase == Ready && h.presented == t && Some(h.participant) == participant)
  {
  }

  /** The transaction runner starts the callback, on a retry in the lineage of the last attempt. */
  function DoAttempt(w: World, r: nat, now: int): World
    requires r < |w.handlers|
  {
    var h := w.handlers[r];
    match h.phase
    case Ready =>
      var s := Serve(w.session, BeginTransaction(false, AtFirstUse, now));
      Put(w.(session := s), r, h.(attempts := h.attempts + 1, tx := s.store.nextTx, phase := Begun))
    case Aborted =>
      var s := Serve(w.session, RetryTransaction(h.tx, now));
      if s.store.nextTx == w.session.store.nextTx then Enter(w.(session := s), r, Thrown(StoreFailure))
      else Put(w.(session := s), r, h.(attempts := h.attempts + 1, tx := s.store.nextTx, phase := Begun))
    case _ => w
  }

  /** Where the callback goes with the context it read. */
  function ContextVerdict(presented: string, context: Option<Document>): Phase {
    var config := ParseContext(context);
    if config.Err? then Thrown(config.error)
    else if !TokenMatches(presented, config.value.token) then Unauthorized
    else Authorized(config.value)
  }

  /** A context document that configures the probe, field by field, and its token. */
  predicate Configures(context: Option<Document>, token: string) {
    && context.Some?
    && var fields := context.value.fields;
    && "enabled" in fields && fields["enabled"] == Bool(true)
    && "barrierToken" in fields && fields["barrierToken"] == Text(token)
    && |token| == 32 && (forall i :: 0 <= i < 32 ==> '0' <= token[i] <= '9' || 'a' <= token[i] <= 'f')
    && "barrierPort" in fields && fields["barrierPort"].Integer? && 1 <= fields["barrierPort"].n <= 65535
    && "protectedPhaseMillis" in fields && fields["protectedPhaseMillis"].Integer?
    && 0 <= fields["protectedPhaseMillis"].n <= 10_000
  }

  predicate Enabled(context: Option<Document>) {
    context.Some? && "enabled" in context.value.fields && context.value.fields["enabled"] == Bool(true)
  }

  lemma ParseIff(context: Option<Document>)
    ensures ParseContext(context).Ok? <==> exists token :: Configures(context, token)
    ensures forall token :: Configures(context, token) ==>
              ParseContext(context) == Ok(Config(context.value.fields["barrierPort"].n, token,
                                                 context.value.fields["protectedPhaseMillis"].n))
    ensures ParseContext(context) == Err(FixturesMissing) <==> !Enabled(context)
    ensures ParseContext(context) == Err(BadConfiguration) <==>
              Enabled(context) && forall token :: !Configures(context, token)
  {
    if ParseContext(context).Ok? { assert Configures(context, ParseContext(context).value.token); }
  }

  /**
   Which contexts take a request that presents `presented` where: on to the lock if and only if
   the document configures the probe with that very token, to the refusal if and only if it does
   with another one, and to one of the two errors otherwise.
   */
  lemma VerdictIff(presented: string, context: Option<Document>)
    ensures ContextVerdict(presented, context).Authorized? <==> Configures(context, presented)
    ensures ContextVerdict(presented, context) == Unauthorized <==>
              exists token :: Configures(context, token) && token != presented
    ensures ContextVerdict(presented, context) == Thrown(FixturesMissing) <==> !Enabled(context)
    ensures ContextVerdict(presented, context) == Thrown(BadConfiguration) <==>
              Enabled(context) && forall token :: !Configures(context, token)
  {
    ParseIff(context);
    if ParseContext(context).Ok? {
      var token := ParseContext(context).value.token;
      MatchIsEquality(presented, token);
      assert Configures(context, token);
    }
  }

  function DoReadContext(w: World, r: nat, now: int): World
    requires r < |w.handlers|
  {
    var h := w.handlers[r];
    if h.phase != Begun then w
    else
      var got := Read(w.session.store, h.tx, CONTEXT, now).1;
      var w1 := w.(session := Serve(w.session, GetDocument(h.tx, CONTEXT, now)));
      if got.Err? then Enter(w1, r, Aborted)
      else Put(w1.(trace := w.trace + [Snapshot(r, h.attempts, got.value)]), r,
               h.(snapshotAt := |w.trace|, phase := ContextVerdict(h.presented, got.value)))
  }

  /** The handler once it has read the lock: the state it saw is pushed. */
  function Observing(h: Handler, config: Config, lock: Document): Handler {
    h.(observations := h.observations + [IsLocked(lock.fields)], lockVersion := lock.version,
       phase := Observed(config, lock.fields))
  }

  function DoReadLock(w: World, r: nat, now: int): World
    requires r < |w.handlers|
  {
    var h := w.handlers[r];
    if !h.phase.Authorized? then w
    else
      var got := Read(w.session.store, h.tx, LOCK, now).1;
      var w1 := w.(session := Serve(w.session, GetDocument(h.tx, LOCK, now)));
      if got.Err? then Enter(w1, r, Aborted)
      else if got.value.None? then Enter(w1, r, Thrown(FixturesMissing))
      else
        var lock := got.value.value;
        Put(w1.(trace := w.trace + [Looked(r, h.attempts, IsLocked(lock.fields), lock.version)]),
            r, Observing(h, h.phase.config, lock))
  }

  /** What the callback returns, or throws, once the latch is passed. */
  function Verdict(lock: Fields): Phase {
    if !IsLocked(lock) then Decided(true)
    else if !Field(lock, "startedAt").Timestamp? then Thrown(StartIsNoTimestamp)
    else if Field(lock, "updatedAt") != Field(lock, "startedAt") then Thrown(TimestampsDiffer)
    else Decided(false)
  }

  function DoProceed(w: World, r: nat, latchOpens: bool): World
    requires r < |w.handlers|
  {
    var h := w.handlers[r];
    if !h.phase.Observed? then w
    else if h.attempts == 1 then
      var w1 := w.(trace := w.trace + [Latched(r)]);
      Enter(w1, r, if latchOpens then Verdict(h.phase.lock) else Thrown(LatchFailed))
    else Enter(w, r, Verdict(h.phase.lock))
  }

  function PendingWrites(h: Handler): seq<Write> {
    if h.phase == Decided(true) then AcquireWrites(h.participant) else []
  }

  /** The commit of the attempt; while it is held back by locks it is tried again. */
  function DoCommit(w: World, r: nat, givesUp: bool, now: int): World
    requires r < |w.handlers|
  {
    var h := w.handlers[r];
    if !h.phase.Decided? && h.phase != Unauthorized then w
    else
      var writes := PendingWrites(h);
      var (st, o) := Commit(w.session.store, writes, Some(h.tx), now);
      var w1 := w.(session := Serve(w.session, CommitWrites(writes, Some(h.tx), now)));
      if o.Refused? then
        if Usable(st, h.tx) && !givesUp then w1 else Enter(w1, r, Aborted)
      else if h.phase == Unauthorized then Enter(w1, r, Forbidding)
      else if !h.phase.acquired then Enter(w1, r, Refusing)
      else
        var lock := Get(w.session.store.history, LOCK);
        var version := if lock.Some? then lock.value.version else 0;
        Enter(w1.(trace := w.trace + [Acquired(r, h.attempts, version, Get(w.session.store.history, CONTEXT))]),
              r, Holding)
  }

  /** An update outside a transaction by a handler that holds the lock. */
  function DoUpdate(w: World, r: nat, writes: seq<Write>, done: Phase, stranded: Phase, events: seq<Event>,
                    now: int): World
    requires r < |w.handlers|
  {
    var o := Commit(w.session.store, writes, None, now).1;
    var w1 := w.(session := Serve(w.session, CommitWrites(writes, None, now)));
    if o.Done? then Enter(w1.(trace := w.trace + events), r, done)
    else if o.error == TooMuchContention then w1
    else Enter(w1, r, stranded)
  }

  function DoAnswer(w: World, r: nat): World
    requires r < |w.handlers|
  {
    var h := w.handlers[r];
    match h.phase
    case Released => Enter(w, r, Replied(Result(true, h.attempts, h.observations)))
    case Refusing => Enter(w, r, Replied(Result(false, h.attempts, h.observations)))
    case Forbidding => Enter(w, r, Replied(WrongCredential))
    case _ => w
  }

  /** A crash, or an error of an awaited call, at any point before the answer. */
  function DoFail(w: World, r: nat): World
    requires r < |w.handlers|
  {
    match w.handlers[r].phase
    case Replied(_) => w
    case Thrown(_) => w
    case Stranded(_) => w
    case Released => w
    case Holding => Enter(w, r, Stranded(false))
    case Counted => Enter(w, r, Stranded(true))
    case _ => Enter(w, r, Thrown(StoreFailure))
  }

  predicate Owned(w: World, id: TxId) {
    exists r :: 0 <= r < |w.handlers| && w.handlers[r].tx == id && w.handlers[r].attempts > 0
  }

  /** What the other clients may ask: not on a handler's transaction, not on the two documents. */
  predicate Foreign(w: World, step: Sessions.Request) {
    match step
    case GetDocument(id, _, _) => !Owned(w, id)
    case AskQuery(id, _, _) => !Owned(w, id)
    case CommitWrites(writes, own, _) =>
      && LOCK !in Written(writes) && ACTIONS !in Written(writes)
      && (own.Some? ==> !Owned(w, own.value))
    case RollbackTransaction(id) => !Owned(w, id)
    case RetryTransaction(id, _) => !Owned(w, id)
    case _ => true
  }

  function Next(w: World, a: Action): World {
    if a.Arrive? then DoArrive(w, a.participant, a.header)
    else if a.Others? then (if Foreign(w, a.step) then w.(session := Serve(w.session, a.step)) else w)
    else if a.request >= |w.handlers| then w
    else
      match a
      case Attempt(r, now) => DoAttempt(w, r, now)
      case ReadContext(r, now) => DoReadContext(w, r, now)
      case ReadLock(r, now) => DoReadLock(w, r, now)
      case Proceed(r, latchOpens) => DoProceed(w, r, latchOpens)
      case TryCommit(r, givesUp, now) => DoCommit(w, r, givesUp, now)
      case Count(r, now) =>
        if w.handlers[r].phase == Holding
        then DoUpdate(w, r, CountWrites(), Counted, Stranded(false), [], now) else w
      case Release(r, now) =>
        if w.handlers[r].phase == Counted
        then DoUpdate(w, r, ReleaseWrites(), Released, Stranded(true), [Freed(r)], now) else w
      case Answer(r) => DoAnswer(w, r)
      case Fail(r) => DoFail(w, r)
      case _ => w
  }

  function Run(w: World, actions: seq<Action>): World {
    if actions == [] then w
    else Next(Run(w, actions[..|actions| - 1]), actions[|actions| - 1])
  }

  /** No request has arrived yet and the lock is not held. */
  predicate Initial(w: World) {
    Fresh(w.session) && !Locked(Get(w.session.store.history, LOCK)) && w.handlers == [] && w.trace == []
  }
}
