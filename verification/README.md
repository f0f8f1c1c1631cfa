# fireemu verification model

A Dafny model of four parts of fireemu, with proofs about every input or every run:

1. **The Firestore transaction engine** (`crates/fireemu-core-firestore/src/store.rs`): versioned documents,
   snapshot reads and queries, the check of both at commit, document and range locks with a deadlock victim,
   retries, rollback and compaction. On top of it the **conditional-lock probe** (`conformance/functions/index.js`): any number of
   requests run the lock transaction, interleaved with each other and with arbitrary other clients of the store.
2. **Frozen validation of a historical receipt** (`tools/auth-session-v2-frozen.py`) with the strict validator it
   reruns (`tools/publish-auth-session-v2.py`, `tools/auth-session-v2/session_v2_contract.py`) and the approval
   (`tools/auth-session-v2-approval.py`).
3. **The workflow contracts** (`scripts/actions-security-contract.rb`, `scripts/heavy-verification-contract.rb`).
4. **The basic Auth projection** (`tools/publish-auth-basic.py`, `tools/auth-basic/contract.py`).

| files | what they hold |
|---|---|
| `Store`, `StoreState` | the engine as functions on values, and as a class proved equal to them |
| `Sessions`, `Serializability` | runs of the engine: serial replay, snapshots, answers to queries |
| `WriteEffects`, `Contention`, `Lifecycle` | what a commit leaves, which commits are accepted or held back, and the life of a transaction, each told independently |
| `Ranges`, `Locking`, `Deadlock`, `Ages`, `WaitRing` | range locks without phantoms, conflicts, deadlock victims and their age, the deadlocks that stay |
| `LockAuth`, `LockProtocol` | the probe's credential check and its steps |
| `LockEffects`, `LockAttempts`, `LockSafety`, `LockRuns`, `LockAnswers` | what all runs of the probe keep |
| `Texts` | characters, ends, stripping and searching |
| `Json`, `SessionContract`, `SessionReceipt`, `SessionApproval` | receipts, their contract, the comparison and the approval |
| `SessionValidator` | the strict validator as the code runs it |
| `GitMemo`, `Frozen` | the memoized git reads and the hook-swapping validator |
| `YamlTree`, `ActionsSecurity` | the YAML syntax-tree check and the checks on the loaded workflow |
| `Expressions`, `Conditions`, `WorkflowSteps` | expressions, job conditions, step fields and step order |
| `AuthBasic` | the projection, the bundle and its validator |

## Assumptions

- Of the probe's surroundings: a commit's acknowledgement reaches the handler, the lock document starts unlocked,
  and only the handlers write the lock and actions documents. The context document and everything else may change
  at any time. A handler may fail at any step and a latch may open or fail arbitrarily.
- SHA-256, the canonical digest and the JSON codec are function parameters, without any assumption on them.
  Git commits are immutable; the Psych scalar scanner and the workflow runner's own semantics are parameters.
- The answer to a query is a function of the documents in its range; a recorded observation is the list of names
  and versions itself, where the code keeps their number and SHA-256.
- JSON values are compared with Python's `==`, in which `True`, `1` and `1.0` are equal.

## What turned out not to hold

- `conformance/README.md:168-169` calls the transaction model optimistic, while `store.rs` both validates the read
  set and takes read locks. The model follows the code.
- Not every deadlock is resolved. A commit aborts someone exactly when a holder of a lock it wants waits for a lock
  of its own (`Deadlock.VictimIffCycleOfTwo`), and a commit that is left waiting stays in a deadlock exactly when a
  chain of waits led from a surviving holder back to it (`Deadlock.DeadlockStaysIff`). Three transactions that wait
  in a ring are reached by an ordinary run and stay for good (`WaitRing.RingIsReached`, `WaitRing.RingOfThreeStays`).
  A later read can close a cycle of two as well; the next attempt of either then breaks it (`Deadlock.PairIsBroken`).
- The fields of a step are stored under the text of each `with` key, so a number and a string key with the same
  text share one entry and only the later value is looked at. `WorkflowSteps.CoverageIffDistinctKeys` gives the
  exact condition: every value is covered, whatever the values are, if and only if the key texts are distinct.

## Model

| member | source | states |
|---|---|---|
| Serializability.Serializable | crates/fireemu-core-firestore/src/store.rs:4536-4730 | after any sequence of requests, queries included, executing the accepted commits one after the other, each on what it read and was answered, gives exactly the store's current documents and version |
| Serializability.SnapshotsAreSerial | crates/fireemu-core-firestore/src/store.rs:3998-4007 | every document a live transaction has read is the one of the serial execution up to its snapshot, for all its reads together |
| Serializability.AnswersAreSerial | crates/fireemu-core-firestore/src/store.rs:4058-4077 | every answer a live transaction was given is what the query answers on the serial execution up to its snapshot |
| Serializability.AcceptedReadsAreCurrent | crates/fireemu-core-firestore/src/store.rs:4810-4854 | an accepted read-write commit has seen, for every path it read, the document current at the commit |
| Serializability.AcceptedAnswersAreCurrent | crates/fireemu-core-firestore/src/store.rs:5104-5126 | an accepted read-write commit was answered, by every query, what the current documents answer |
| Serializability.SameVersionSameDocument | crates/fireemu-core-firestore/src/store.rs:5097-5128 | comparing versions is enough: equal versions mean the same document, or both absent |
| Serializability.SameVersionsSameRows | crates/fireemu-core-firestore/src/store.rs:1546-1561 | comparing the names and versions of the rows is enough: equal observations mean equal rows |
| Serializability.ServeGood | crates/fireemu-core-firestore/src/store.rs:2756-4730 | every request keeps the invariant that ties histories, snapshots, read sets and the log together |
| Serializability.RefusedKeeps | crates/fireemu-core-firestore/src/store.rs:4544-4602 | a refused commit leaves every history and the version as they were and revives no transaction |
| Serializability.StageErrorStays | crates/fireemu-core-firestore/src/store.rs:4572-4652 | the first refused write decides the commit; no later write can undo it |
| WriteEffects.CommitLeaves | crates/fireemu-core-firestore/src/store.rs:6249-6333 | an accepted commit leaves at every path, field by field, what its writes in order make of the stored document: values, masks, transforms, deletion and create time |
| WriteEffects.LastWriteDecides | crates/fireemu-core-firestore/src/store.rs:6249-6333 | the last write to a path decides: a delete leaves nothing, an unmasked set exactly its fields, a masked set its fields inside the mask and outside it what the earlier writes had left, a verify what the earlier writes had left |
| WriteEffects.UnnamedFieldStays | crates/fireemu-core-firestore/src/store.rs:6292-6307 | a field that no write of an accepted commit names keeps its value |
| WriteEffects.CreateTimeKept | crates/fireemu-core-firestore/src/store.rs:6291-6331 | a document keeps its create time if it stood before and no write deleted it, and has the commit's otherwise |
| WriteEffects.AcceptedIff | crates/fireemu-core-firestore/src/store.rs:4544-4652 | a commit is accepted if and only if its transaction and the locks let it pass and every write is well formed and finds its precondition true after the writes before it; otherwise the first such write gives the error |
| WriteEffects.VersionsTellChanges | crates/fireemu-core-firestore/src/store.rs:4625-4664 | a document has a new version, the commit's, if and only if some write changes what is stored, and the store's version goes up by one if and only if that happens anywhere |
| WriteEffects.CommitTimesAdvance | crates/fireemu-core-firestore/src/store.rs:5133-5142 | a commit with writes takes a time later than every earlier commit and not before now, and exactly now where that is possible |
| Serializability.CompactedAt | crates/fireemu-core-firestore/src/store.rs:3776-3890 | compaction changes no read at or after the floor, tombstones included |
| Serializability.CompactedCurrent | crates/fireemu-core-firestore/src/store.rs:3776-3890 | compaction changes no current document |
| Serializability.SnapshotSurvives | crates/fireemu-core-firestore/src/store.rs:1860-1867 | publishing a commit changes no read at an earlier version |
| Locking.ConflictIffReadBehind | crates/fireemu-core-firestore/src/store.rs:5097-5128 | on every run a live read-write transaction conflicts if and only if one of its reads or queries was already behind when it was made; the locks exclude every later cause |
| Locking.LockedDocumentStays | crates/fireemu-core-firestore/src/store.rs:4858-4866 | no accepted commit changes a document that a transaction still live afterwards has read |
| Locking.LockedRangeStays | crates/fireemu-core-firestore/src/store.rs:4858-4909 | no accepted commit changes a document in a range that a transaction still live afterwards has queried, takes one out of it or brings one into it: no phantoms |
| Ranges.StagedIsPreview | crates/fireemu-core-firestore/src/store.rs:4901-4909 | what a commit stages for a document without a transform has the content that the lock's preview of the writes gives it |
| Ranges.UncoveredRangeStays | crates/fireemu-core-firestore/src/store.rs:4886-4909 | a commit the range lock does not cover leaves the range of the query exactly as it was |
| Contention.RowsAre | crates/fireemu-core-firestore/src/store.rs:5970-6017 | the answer to a query is one row for every picked path in its range, in the order of the picks; the range is exactly the documents in scope that pass the filter |
| Contention.CoversIff | crates/fireemu-core-firestore/src/store.rs:4886-4909 | a range lock covers a write if and only if the path is in scope and there is no filter, or a transform is in the way, or the document before or after the writes passes |
| Contention.LocksIff | crates/fireemu-core-firestore/src/store.rs:4858-4883 | a transaction holds a lock on a commit if and only if it has read a document that the commit writes or one of its queries covers one |
| Contention.HeldBackIff | crates/fireemu-core-firestore/src/store.rs:4924-4983 | outside a transaction a commit is held back if and only if a live transaction holds a lock on it |
| Contention.HeldBackInIff | crates/fireemu-core-firestore/src/store.rs:4924-4983 | in a transaction a commit is held back if and only if a holder that does not wait for it is in its way and none that does is older |
| Locking.UnwrittenStays | crates/fireemu-core-firestore/src/store.rs:4687-4722 | a commit changes no document outside its writes, and a refused one changes none |
| Deadlock.VictimIsYounger | crates/fireemu-core-firestore/src/store.rs:4948-4973 | a deadlock victim began later than a transaction that stays live, or at the same instant with a larger id |
| Deadlock.OldestIsNeverVictim | crates/fireemu-core-firestore/src/store.rs:4924-4983 | no commit makes a victim of the live transaction that began first, ids deciding between equal instants |
| Deadlock.VictimHasElder | crates/fireemu-core-firestore/src/store.rs:4924-4983 | whoever a commit makes a victim, there was a live transaction that began earlier, and the commit did not abort it |
| Ages.VictimBeganLater | crates/fireemu-core-firestore/src/store.rs:4924-4983 | on every run with a clock that does not go back, at some moment a transaction that the commit spares had begun and the victim had not |
| Deadlock.VictimsAreAborted | crates/fireemu-core-firestore/src/store.rs:4948-4967 | in every store, a commit past the check of its own reads aborts exactly the requester, if a holder that began before it waits for it, and else exactly the holders that wait for it |
| Deadlock.VictimIffCycleOfTwo | crates/fireemu-core-firestore/src/store.rs:4948-4967 | such a commit aborts someone if and only if a holder of a lock it wants waits for a lock of its own |
| Deadlock.PairIsBroken | crates/fireemu-core-firestore/src/store.rs:4924-4983 | of two transactions that wait for each other, however that came about, the next attempt of either leaves at most one live |
| Deadlock.DeadlockStaysIff | crates/fireemu-core-firestore/src/store.rs:4960-4983 | a commit that is left waiting is on a cycle of waits afterwards if and only if, before it, a chain of waits through survivors led from a surviving holder back to it |
| Deadlock.WaitingIsInNoPair | crates/fireemu-core-firestore/src/store.rs:4960-4983 | at the moment a commit is left waiting, nobody it waits for waits for it |
| WaitRing.RingIsReached | crates/fireemu-core-firestore/src/store.rs:4924-5032 | nine ordinary requests on an empty store, with a clock that runs forward, lead to three transactions that wait in a ring |
| WaitRing.RingIsDeadlock | crates/fireemu-core-firestore/src/store.rs:4989-5032 | each of the three is on a cycle of waits |
| WaitRing.RingOfThreeStays | crates/fireemu-core-firestore/src/store.rs:4924-4983 | however often and in whatever order the three commits are tried again, the store does not change |
| Lifecycle.RefusedAs | crates/fireemu-core-firestore/src/store.rs:3964-3994 | what a read on an unusable transaction answers: unknown, deadlock victim, or no longer valid |
| Lifecycle.CheckIff | crates/fireemu-core-firestore/src/store.rs:4810-4854 | each answer of the check of a committing transaction, and the state it leaves, if and only if its condition holds |
| Lifecycle.FirstUse | crates/fireemu-core-firestore/src/store.rs:3326-3362 | the version and time of the snapshot and the time of the first read, for each kind of transaction |
| Lifecycle.EmptyCommitAnswersFirstRead | crates/fireemu-core-firestore/src/store.rs:4558-4570 | an empty commit of a transaction that has read answers the time of its first read, uses up no commit time and changes no document |
| Lifecycle.RetryIff | crates/fireemu-core-firestore/src/store.rs:2813-2877 | which retries are accepted; the named attempt is then unusable and holds nothing, the new one has a new id and no lock, the others are as they were, and only an attempt that ran out of time can be retried again |
| Lifecycle.RollbackIs | crates/fireemu-core-firestore/src/store.rs:4447-4481 | a rollback ends a usable transaction and frees its locks, and leaves everything else alone |
| Lifecycle.CompactionDrops | crates/fireemu-core-firestore/src/store.rs:3776-3890 | compaction keeps at most one entry at or before the floor and every entry after it, and drops a path that is only a tombstone |
| StoreState.FirestoreState.GetAtVersion | crates/fireemu-core-firestore/src/store.rs:1860-1867 | the backward scan returns the newest entry at or before the version |
| StoreState.FirestoreState.BeginTransaction | crates/fireemu-core-firestore/src/store.rs:2756-2808 | the id is new, every other transaction is as it was, and the new one is usable from its snapshot on and holds no lock |
| StoreState.FirestoreState.FinishTransaction | crates/fireemu-core-firestore/src/store.rs:3071-3111 | every other transaction is as it was; the finished one is not usable any more, waits for nothing, and no commit runs into a lock of it |
| StoreState.FirestoreState.TouchTransaction | crates/fireemu-core-firestore/src/store.rs:3282-3369 | a usable transaction has a snapshot and a first read time afterwards, one it had is kept, and touching again, whenever, changes nothing |
| StoreState.FirestoreState.GetInTransaction | crates/fireemu-core-firestore/src/store.rs:3998-4007 | the read is served from the snapshot and recorded, as specified |
| StoreState.FirestoreState.RunQueryInTransaction | crates/fireemu-core-firestore/src/store.rs:4244-4381 | the rows are those of the snapshot; the loop notes each of them as read, and the query is recorded with their versions |
| StoreState.FirestoreState.TransactionConflicted | crates/fireemu-core-firestore/src/store.rs:5097-5128 | the loops over the documents read and the queries run decide whether any version or any answer differs now |
| StoreState.FirestoreState.ValidateTransactionCommit | crates/fireemu-core-firestore/src/store.rs:4810-4854 | the checks on the committing transaction, with the state each refusal leaves |
| StoreState.FirestoreState.ContentionHolders | crates/fireemu-core-firestore/src/store.rs:4989-5032 | the loop finds exactly the holders, of documents or ranges, in the way and those among them that wait for the requester |
| StoreState.FirestoreState.AbortVictims | crates/fireemu-core-firestore/src/store.rs:4960-4967 | exactly the given transactions become victims |
| StoreState.FirestoreState.CheckLocks | crates/fireemu-core-firestore/src/store.rs:4924-4983 | the contention decision and its new state |
| StoreState.FirestoreState.StageWrites | crates/fireemu-core-firestore/src/store.rs:4572-4652 | the staging loop equals the fold of the writes over the current documents |
| StoreState.FirestoreState.CommitWrites | crates/fireemu-core-firestore/src/store.rs:4536-4730 | the whole commit, in place, equals the specification |
| StoreState.FirestoreState.Publish | crates/fireemu-core-firestore/src/store.rs:4549-4729 | staging, publication and the end of the transaction, in place, equal the specification |
| StoreState.FirestoreState.CompactTo | crates/fireemu-core-firestore/src/store.rs:3776-3890 | dropping entries path by path equals the specified compaction |
| StoreState.FirestoreState.HandleRequests | crates/fireemu-core-firestore/src/store.rs:4536-4730 | the object after any sequence of requests is the store of the modelled run, so what it holds is the serial execution of the accepted commits |
| Store.Saturate | crates/fireemu-core-firestore/src/store.rs:6861-6869 | the sum of two integers is exact in 64 bits where it fits and the bound it passed where it does not |
| LockAuth.BearerToken | conformance/functions/conditional-lock-auth.js:5-9 | a token is found if and only if the header is the scheme followed by 32 hexadecimal digits |
| LockAuth.MatchIsEquality | conformance/functions/conditional-lock-auth.js:11-14 | tokens match if and only if they are equal and well formed |
| LockProtocol.ArrivalIff | conformance/functions/index.js:76-85 | a request is answered 400 if and only if the participant is not 0 or 1, 403 if and only if then the header is not the scheme and 32 hexadecimal digits, and is else ready with those digits |
| LockProtocol.ParseIff | conformance/functions/index.js:101-118 | which context documents, field by field, configure the probe, and which of the two errors the others raise |
| LockProtocol.VerdictIff | conformance/functions/index.js:101-121 | a request goes on to the lock if and only if the context is enabled, in range and holds the very token presented, is refused if and only if it holds another one, and fails in one of two ways otherwise |
| LockSafety.MutualExclusion | conformance/functions/index.js:98-171 | in every reachable state at most one request, running or failed, is between acquire and release; the lock is locked exactly when there is one, and its owner is that request's participant |
| LockSafety.NextSafe | conformance/functions/index.js:75-171 | every step of every request and every other client keeps the invariant |
| LockSafety.AcquireFindsUnlocked | conformance/functions/index.js:122-158 | a decision that commits is about the lock as it is at the commit, under a context document whose own fields are enabled, in range and hold the presented token |
| LockRuns.AcquisitionsAreSerial | conformance/functions/index.js:122-171 | between any two acquisitions of a run, the first is released before the second's committing attempt takes its snapshot |
| LockRuns.OneWinnerPerVersion | conformance/functions/index.js:122-158 | of all attempts whose read of the lock returned one version at most one acquires it, and every attempt that acquires it had read it before |
| LockAnswers.AnswersAreRecorded | conformance/functions/index.js:89-170 | a 200 or 409 has at least one observation and no more observations than attempts, the last is false exactly for 200, and neither timestamp error is ever raised |
| LockAnswers.RefusalSawHolder | conformance/functions/index.js:129-145 | every 409 has a moment during the request at which another request held the lock |
| LockAnswers.LooksAreAuthorized | conformance/functions/index.js:119-128 | a lock read or a latch call follows, in the same attempt, the read of a context document whose own fields are enabled, in range and hold the presented token, and each request reaches the latch at most once |
| LockAnswers.EffectsAreGuarded | conformance/functions/index.js:81-169 | a step that changes the lock or the actions document belongs to a request whose well-formed token was in the enabled, well-configured context document when it acquired |
| LockAnswers.CounterConserved | conformance/functions/index.js:164-170 | on every run the counter is its start plus the requests past the increment; at a release it is the number of acquisitions so far, and at quiescence the number of 200 replies |
| GitMemo.FoundIsDirect | tools/auth-session-v2-frozen.py:44-129 | a hit of an agreeing cache is what the read returns |
| GitMemo.RememberAgrees | tools/auth-session-v2-frozen.py:44-129 | storing and evicting keep the cache agreeing and within its bound |
| GitMemo.Memo.GitBytes | tools/auth-session-v2-frozen.py:44-54 | from any state of the caches the answer is the direct read, and a failure is never stored |
| GitMemo.Memo.PublicationContract | tools/auth-session-v2-frozen.py:57-61 | the digest of the publisher at the commit, or a failure, as a direct read gives |
| GitMemo.Memo.SourceReviewDigest | tools/auth-session-v2-frozen.py:64-70 | the digest of the review at the commit, or a failure, as a direct read gives |
| GitMemo.Memo.ApprovalSource | tools/auth-session-v2-frozen.py:73-77 | the digest of the approval tool at the fixed commit |
| GitMemo.Memo.ReadTable | tools/auth-session-v2-frozen.py:112-124 | the loop builds the table of digests of exactly the named files, and refuses an empty one |
| GitMemo.Memo.ProbeInputs | tools/auth-session-v2-frozen.py:80-124 | the table of probe files at the commit, as a direct read gives |
| GitMemo.Memo.RuntimeInputs | tools/auth-session-v2-frozen.py:127-129 | the table of runtime files at the commit, as a direct read gives |
| GitMemo.ProbeFileIff | tools/auth-session-v2-frozen.py:100-111 | a probe file is a Python module, no test, directly in one of the two directories, and every such file is one |
| GitMemo.RuntimeFileIff | tools/compat-inventory/evidence_common.py:120-143 | a runtime file is one of three files at the top or lies under one of two directories, and every such file is one |
| Frozen.FrozenIsCheckout | tools/auth-session-v2-frozen.py:143-189 | frozen validation accepts a value if and only if both reports name one commit and the validator in use, given the four inputs of the recorded commits, accepts it; the four inputs of the working tree play no part |
| Frozen.StrictIsBound | tools/auth-session-v2-frozen.py:145-163 | strict acceptance in that checkout already implies every recorded binding |
| Frozen.PastIsRecorded | tools/auth-session-v2-frozen.py:165-184 | the recorded inputs handed to the validator are the snapshot itself |
| Frozen.Publisher.StrictValidate | tools/publish-auth-session-v2.py:104-275 | the strict validator, run on what the hooks point at, answers what the contract says of it |
| Frozen.Publisher.CheckBindings | tools/auth-session-v2-frozen.py:132-163 | the five bindings, read through the caches, hold or the receipt is refused |
| Frozen.Publisher.DoValidateFrozen | tools/auth-session-v2-frozen.py:143-189 | the answer is frozen acceptance, and all four hooks are restored on acceptance, refusal and a failing disk |
| Frozen.Publisher.DoRender | tools/auth-session-v2-frozen.py:207-209 | rendering answers with the validator the hook names |
| Frozen.Publisher.DoRenderFrozen | tools/auth-session-v2-frozen.py:197-204 | the nested path ends, answers frozen acceptance and restores all five hooks |
| Frozen.Publisher.DoRenderApproval | tools/auth-session-v2-frozen.py:212-237 | the approval is accepted only with the anchored source, under frozen validation, and restores the hooks |
| Frozen.Publisher.RunCalls | tools/auth-session-v2-frozen.py:143-237 | after any sequence of calls the hooks are the original ones and each call answered as if it had been the only one |
| SessionApproval.Accept | tools/auth-session-v2-approval.py:22-52 | the loop accepts if and only if the decision and the subject match, the receipt is valid, and every pair of rows is controlled, observed, and has the same outcome, error and follow-up |
| SessionApproval.ComparisonIff | tools/publish-auth-session-v2.py:328-349 | each verdict on two rows, if and only if: inconclusive without controls or observation, the same if outcome, error and follow-up agree, different otherwise |
| SessionApproval.ControlledIff | tools/publish-auth-session-v2.py:352-369 | a sample may be compared if and only if the six named controls of its offset are observed on both targets, any other row if and only if both reports are observed |
| SessionApproval.ApprovalSays | tools/auth-session-v2-approval.py:23-40 | where the digest is nobody else's, an accepted approval says approve, of this receipt, scope, commit and these 34 cases |
| SessionApproval.ApprovalIsAgreement | tools/auth-session-v2-approval.py:33-52 | for a valid receipt all pairs match if and only if both reports are observed and the two rows of every case have the same outcome, error and follow-up |
| SessionApproval.ApprovalImplies | tools/auth-session-v2-approval.py:33-52 | an accepted approval means, for every row on both targets: observed, conclusive, same outcome, error and follow-up as the other's, every named control at every offset observed, and tokens issued strictly before the change |
| SessionApproval.ObservedMeansControlled | tools/publish-auth-session-v2.py:352-369 | two observed reports control every row |
| SessionApproval.ObservedIsConclusive | tools/auth-session-v2/session_v2_contract.py:315-412 | a valid row is observed if and only if its answers decide its case in time, and late if and only if only the time is wrong |
| SessionApproval.OutcomeIff | tools/auth-session-v2/session_v2_contract.py:187-308 | a valid response is accepted if and only if status 200 and all checks, rejected if and only if status 400 and one of six errors, and without status if and only if nothing came back; accepted tokens last one hour and carry ordered times |
| SessionApproval.LatestIsOne | tools/publish-auth-session-v2.py:306-311 | the latest issue time is that of one of the rows |
| SessionApproval.IssuedBeforeChange | tools/publish-auth-session-v2.py:278-325 | a valid timing puts every earlier token's issue time strictly below the changed token's |
| SessionApproval.VerdictIsSymmetric | tools/publish-auth-session-v2.py:338-369 | swapping the two targets changes no verdict |
| Json.SameNumbers | tools/publish-auth-session-v2.py:346-348 | numbers and booleans are equal by value, as in the script's language, and nothing else equals a number |
| SessionValidator.Validate | tools/publish-auth-session-v2.py:104-275 | the requirements in the code's order accept exactly the receipts of the contract |
| SessionValidator.CheckReport | tools/publish-auth-session-v2.py:134-178 | the requirements on one report |
| SessionValidator.CheckProduction | tools/publish-auth-session-v2.py:179-203 | the requirements on the production report and its configuration |
| SessionValidator.CheckLocal | tools/publish-auth-session-v2.py:204-275 | the requirements on the local report, its artifact, build, configuration and process |
| SessionValidator.CheckConfiguration | tools/publish-auth-session-v2.py:215-226 | the strict configuration with both of its digests |
| SessionValidator.CheckBuild | tools/publish-auth-session-v2.py:227-238 | the locked build of this artifact from the given inputs |
| SessionValidator.CheckProcess | tools/publish-auth-session-v2.py:239-275 | the owned process and its child, stopped, closed and strict |
| SessionValidator.CheckReview | tools/publish-auth-session-v2.py:128-132 | the review is the one recorded, has the 34 obligations in order, and grants nothing |
| SessionValidator.CheckTiming | tools/publish-auth-session-v2.py:278-325 | the waits, the order and the issue times of the recorded rows |
| SessionValidator.CheckComplete | tools/auth-session-v2/session_v2_contract.py:424-447 | no failure, cleaned up, every row valid, and the status sums up their quality |
| SessionValidator.CheckCase | tools/auth-session-v2/session_v2_contract.py:348-412 | the requirements on one row |
| SessionValidator.CheckResponse | tools/auth-session-v2/session_v2_contract.py:260-308 | the requirements on one response |
| SessionValidator.QualityOfSample | tools/auth-session-v2/session_v2_contract.py:315-335 | the quality of a sample |
| SessionValidator.KindIff | tools/auth-session-v2/session_v2_contract.py:158-173 | what is asked of a case follows from its name |
| SessionValidator.CaseIds | tools/auth-session-v2/session_v2_contract.py:7-32 | the 34 cases by name, in order |
| SessionValidator.FixedValues | tools/auth-session-v2/session_v2_contract.py:33-41 | the corpus that a receipt must name, field by field, and the password policy |
| SessionValidator.VersionIff | tools/publish-auth-session-v2.py:209-212 | a version is three groups of digits with dots between |
| YamlTree.Inspector.Inspect | scripts/actions-security-contract.rb:9-34 | the shared error list grows by exactly the errors of the node at its path, in order |
| YamlTree.Inspector.InspectPair | scripts/actions-security-contract.rb:13-28 | the errors of one key and value, given the keys seen before |
| YamlTree.NoErrorIffSound | scripts/actions-security-contract.rb:9-34 | no error if and only if no address holds an alias and every mapping at every address has scalar, distinct, non-merge keys and cache modes only where and as allowed |
| ActionsSecurity.LookupIsEntry | scripts/actions-security-contract.rb:42-57 | in a sound mapping a lookup of the loaded hash is the unique entry of the tree with that key, and fails exactly when there is none |
| ActionsSecurity.UnpinnedUses | scripts/actions-security-contract.rb:45-52 | nothing is reported for a job if and only if each `uses` of the job and its steps that is not nil starts with "./" or ends, by position, in an at sign and forty hexadecimal digits after an owner and an action without blanks |
| ActionsSecurity.PinnedIff | scripts/actions-security-contract.rb:50 | the pattern matches if and only if the characters at each position are the right ones |
| ActionsSecurity.UsesIff | scripts/actions-security-contract.rb:47-51 | the collected uses are all in order if and only if the job's and each step's are, a step that is a text among them |
| ActionsSecurity.LoadedViolations | scripts/actions-security-contract.rb:43-80 | no error if and only if the jobs are a mapping, every job's uses are local or end in a full commit, and each of the four named jobs of its file has the mode read or none |
| ActionsSecurity.Violations | scripts/actions-security-contract.rb:36-92 | no error if and only if the root is a mapping, the rules hold at every address of the tree, and the loaded workflow has those uses and modes |
| ActionsSecurity.GoverningModeIsReadOnly | scripts/actions-security-contract.rb:53-73 | in an accepted tree each guarded job exists and the mode that governs it, its own or else the workflow's, is written read or none |
| ActionsSecurity.CacheModesArePlaced | scripts/actions-security-contract.rb:22-26 | in an accepted tree every cache mode is literal and stands at the root or in an entry of the mapping that the lookup of the jobs finds |
| Expressions.PrefixCode | scripts/heavy-verification-contract.rb:40 | no naming token starts another |
| Expressions.TokenAtIsToken | scripts/heavy-verification-contract.rb:40-45 | what the ordered alternatives match is a token |
| Expressions.TokenIsMatched | scripts/heavy-verification-contract.rb:40-45 | a token at the start is what they match |
| Expressions.ResidueIsExact | scripts/heavy-verification-contract.rb:43-45 | one removal pass leaves nothing if and only if the text is a concatenation of tokens |
| Expressions.DecompositionIsUnique | scripts/heavy-verification-contract.rb:40-45 | that concatenation is unique |
| Expressions.PassedReadsNames | scripts/heavy-verification-contract.rb:38-45 | a dot of a passed expression is inside quotes or inside one of the five names of the event, the schedule and the inputs: nothing else is read |
| Expressions.BodiesAreDisjoint | scripts/heavy-verification-contract.rb:49-51 | the scan yields the expressions in order, apart, and without closing braces inside |
| Expressions.NothingEscapes | scripts/heavy-verification-contract.rb:49-51 | every opening that is closed somewhere lies in an expression of the scan |
| Texts.StripIs | scripts/heavy-verification-contract.rb:50 | stripping removes spaces from both ends, all of them and nothing else |
| WorkflowSteps.NamingIsExact | scripts/heavy-verification-contract.rb:43-45 | a text has no unnamed expression if and only if each of its expressions is a concatenation of tokens |
| WorkflowSteps.StepExpressionIff | scripts/heavy-verification-contract.rb:32 | an expression is allowed if and only if it is one of the six forms with words of lower-case letters and underscores |
| WorkflowSteps.StringsAreLeaves | scripts/heavy-verification-contract.rb:53-60 | a string is collected if and only if it is a leaf at some depth |
| WorkflowSteps.CollectFields | scripts/heavy-verification-contract.rb:125-127 | the loops store the inputs and the step's own keys, later ones over earlier ones |
| WorkflowSteps.FieldsAre | scripts/heavy-verification-contract.rb:125-127 | a key of the stored fields holds the last input of its text or the step's own value, and is there once |
| WorkflowSteps.FieldErrors | scripts/heavy-verification-contract.rb:130-134 | the unknown expressions of all strings of a field, in order |
| WorkflowSteps.StepErrors | scripts/heavy-verification-contract.rb:124-135 | the unknown expressions of all fields but the condition, in order |
| WorkflowSteps.NoErrorIffClean | scripts/heavy-verification-contract.rb:124-135 | no error if and only if every string at every depth of the stored fields uses allowed expressions only |
| WorkflowSteps.CoverageIffDistinctKeys | scripts/heavy-verification-contract.rb:124-135 | whatever the values, a step without a reported expression uses allowed expressions in every value of `with`, if and only if no key text comes twice |
| WorkflowSteps.FirstIndex | scripts/heavy-verification-contract.rb:178-179 | the first script with the part in it, or that there is none |
| WorkflowSteps.FirstsDecide | scripts/heavy-verification-contract.rb:178-184 | comparing first indices decides whether every later script is preceded by an earlier one |
| WorkflowSteps.OrderErrors | scripts/heavy-verification-contract.rb:177-189 | one error for exactly those of the three orders that do not hold for every script |
| Conditions.AtomCloses | scripts/heavy-verification-contract.rb:37 | an allowed term closes its quotes and parentheses and holds no operator |
| Conditions.AtomIff | scripts/heavy-verification-contract.rb:37 | a term is allowed, and compares what, if and only if it is `always()` or one of the four names, blanks, its operator, blanks and its quoted text |
| Conditions.SplitInvertsJoin | scripts/heavy-verification-contract.rb:92 | splitting the joined terms gives the terms back, if they or the pieces are allowed terms |
| Conditions.AllowedIsConjunction | scripts/heavy-verification-contract.rb:92 | a well-formed condition passes if and only if it is one conjunction of allowed terms |
| Conditions.ConditionIsIndependent | scripts/heavy-verification-contract.rb:92-93 | an accepted condition has the same value in any two contexts that agree on the plan's result, its job and skip outputs and the count of mutants |
| AuthBasic.CheckRows | tools/publish-auth-basic.py:70-71 | the loop accepts exactly nine rows that are each valid for their case |
| AuthBasic.CheckRow | tools/publish-auth-basic.py:38-53 | the requirements on one row |
| AuthBasic.PublishedRowMeans | tools/publish-auth-basic.py:38-53 | a row of a valid bundle is of its case, and passed if and only if all its checks hold, and then with status 200, or 400 for the fourth |
| AuthBasic.CheckComplete | tools/auth-basic/contract.py:75-89 | a report without a failure, with every case in order and nothing left behind |
| AuthBasic.CheckOwned | tools/publish-auth-basic.py:78-93 | the requirements on the owned process, instance, artifact and build |
| AuthBasic.CheckOwnProject | tools/publish-auth-basic.py:104-109 | the requirements on the production project |
| AuthBasic.CopyListed | tools/publish-auth-basic.py:72-75 | exactly the five listed fields are copied |
| AuthBasic.Project | tools/publish-auth-basic.py:63-110 | the projection, or a refusal exactly when one of the requirements fails |
| AuthBasic.CheckShapes | tools/publish-auth-basic.py:157-161 | the loop accepts exactly when every digest and commit key holds a text of its length |
| AuthBasic.CheckReport | tools/publish-auth-basic.py:139-166 | the checks of one report of the bundle |
| AuthBasic.Validate | tools/publish-auth-basic.py:113-166 | the validator accepts exactly the valid bundles |
| AuthBasic.ProjectionValidates | tools/publish-auth-basic.py:63-166 | a projection is a valid report if and only if the report's dates, commits and digests are well shaped |
| AuthBasic.BundleValidates | tools/publish-auth-basic.py:223-233 | the bundle of two projections validates if and only if the inputs are unchanged and both reports are well shaped |
| AuthBasic.ProjectionHidesTheRest | tools/publish-auth-basic.py:63-110 | reports that agree on the listed fields are both projected or both refused, with equal projections but for the two digests |

## Left out

- `import_documents` publishes versions without the contention check, so what is said of locks and conflicts does not hold across a call of it; the program calls it on a new state without transactions only.
- Queries in pages: a query is answered and recorded in one request. A filter that cannot be evaluated, and the limit on recorded queries, are not modelled.
- Nested field paths, doubles, arrays and the transforms other than the server timestamp and the increment.
- StoreState.FirestoreState.ContentionHolders: does not model request-owned commit waits; a transaction has at most one recorded wait.
- StoreState.FirestoreState.CheckLocks: does not model request-owned commit waits, for the same reason.
- StoreState.FirestoreState.ValidateTransactionCommit: does not model deadlines; a transaction may expire in a step of its own at any moment instead.
- StoreState.FirestoreState.StageWrites: does not model the size and index checks of a staged document.
- StoreState.FirestoreState.CommitWrites: does not model the transform budget, the admission callback and the history limits.
- StoreState.FirestoreState.Publish: does not model the history limits; the compaction that follows a commit is a step of its own.
- Reads served on a token that a retry named, and the answers of a rollback.
- LockProtocol: the handlers are a state machine on values whose steps lie between two awaits, so the in-place update of `attempts` and `observations` is not captured as mutation; the coercion of the participant to a number is a parameter, and the latch server, HTTP and sleeping are steps that may happen or fail at any time.
- Frozen.FrozenIsCheckout: the scope text, the cases and the code of the validator stay those in use, as in the script, which replaces four inputs only.
- Frozen: a value that is not an object and a report whose `build` is not an object are refused, where the script raises another exception type; page text is not modelled.
- NaN and infinite floating point numbers in receipts, and the JSON text round trip of the bundle.
- ActionsSecurity.LoadedViolations: does not model the checkout, cache-action, smoke-command and release checks, which are fixed lookups of one field each.
- ActionsSecurity.Violations: does not model those checks either; lookups are about untagged scalars.
- WorkflowSteps: the job-level fields, the scripts, `env` and the pinned-actions table are not modelled; `with` is a mapping.
- Conditions: the value of the condition text only, not the `success()` that the runner adds to a condition without a status function.
- The remaining fixed-text checks of `heavy-verification-contract.rb`, the other publishers, page rendering and command lines: they would only add easy members.
