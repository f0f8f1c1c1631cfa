/**
 Validating a receipt in its own past (tools/auth-session-v2-frozen.py). The strict validator is
 run while four hooks of the publisher module point at the recorded commits; whatever happens,
 the hooks are put back, and the answer is that of the strict validator in that past.
 */
module Frozen {
  import opened Common
  import opened Texts
  import opened Json
  import opened SessionReceipt
  import opened SessionApproval
  import SessionValidator
  import opened GitMemo

  // ----- What a frozen validation means -----

  function CommitOf(report: Json): Option<string> {
    var commit := Get(report, "probeSourceCommit");
    if commit.Str? then Some(commit.s) else None
  }

  /** The one commit that both reports name. */
  function RecordedCommit(value: Json): Option<string> {
    var local, production := CommitOf(Get(value, "local")), CommitOf(Get(value, "production"));
    if value.Obj? && local.Some? && local == production && HexText(local.value, 40) then local else None
  }

  function RuntimeCommit(value: Json): Option<string> {
    var commit := Get(Get(value, "local"), "runtimeSourceCommit");
    if Hex(commit, 40) then Some(commit.s) else None
  }

  /** The receipt's recorded bindings are the snapshots of the commits it names. */
  predicate Bound(git: Git, f: Foreign, value: Json) {
    var commit, runtime := RecordedCommit(value), RuntimeCommit(value);
    && commit.Some? && runtime.Some?
    && var probe, built := ProbeInputsAt(git, f, commit.value), RuntimeInputsAt(git, f, runtime.value);
    && probe.Some? && Same(Get(value, "probeInputs"), probe.value)
    && built.Some? && Same(Get(Get(Get(value, "local"), "build"), "inputs"), built.value)
    && ShaAt(git, f, commit.value, PUBLISHER).Some?
    && Same(Get(value, "publicationContractSha256"), Str(ShaAt(git, f, commit.value, PUBLISHER).value))
    && ReviewDigestAt(git, f, commit.value).Some?
    && Same(Get(value, "sourceReviewSha256"), Str(ReviewDigestAt(git, f, commit.value).value))
  }

  /** The publisher's surroundings as they were at the recorded commits. */
  function Past(git: Git, f: Foreign, scope: string, value: Json): Env
    requires Bound(git, f, value)
  {
    var commit := RecordedCommit(value).value;
    Env(f, scope, ProbeInputsAt(git, f, commit).value, RuntimeInputsAt(git, f, RuntimeCommit(value).value),
        Show(git, commit, REVIEW), ShaAt(git, f, commit, PUBLISHER).value)
  }

  /** The recorded inputs are the snapshot itself, and the snapshots are there to be read. */
  lemma PastIsRecorded(git: Git, f: Foreign, scope: string, value: Json)
    requires Bound(git, f, value)
    ensures RecordedCommit(value).Some? && RuntimeCommit(value).Some?
    ensures var commit := RecordedCommit(value).value;
            && Show(git, commit, REVIEW).Some? && ShaAt(git, f, commit, PUBLISHER).Some?
            && Past(git, f, scope, value) ==
                 Env(f, scope, Get(value, "probeInputs"), RuntimeInputsAt(git, f, RuntimeCommit(value).value),
                     Show(git, commit, REVIEW), ShaAt(git, f, commit, PUBLISHER).value)
  {
    SameStrings(Get(value, "probeInputs"), ProbeInputsAt(git, f, RecordedCommit(value).value).value);
  }

  predicate FrozenAccepts(git: Git, f: Foreign, scope: string, value: Json) {
    Bound(git, f, value) && Validates(Past(git, f, scope, value), value)
  }

  /** The publisher's surroundings with the commit checked out, built from `runtime`. */
  function Checkout(git: Git, f: Foreign, scope: string, commit: string, runtime: string): Option<Env> {
    var probe, sha := ProbeInputsAt(git, f, commit), ShaAt(git, f, commit, PUBLISHER);
    if probe.None? || sha.None? then None
    else Some(Env(f, scope, probe.value, RuntimeInputsAt(git, f, runtime), Show(git, commit, REVIEW), sha.value))
  }

  /** A strict acceptance in the checkout of the recorded commits establishes the bindings. */
  lemma StrictIsBound(git: Git, f: Foreign, scope: string, value: Json, commit: string, runtime: string)
    requires RecordedCommit(value) == Some(commit) && RuntimeCommit(value) == Some(runtime)
    requires Checkout(git, f, scope, commit, runtime).Some?
    requires Validates(Checkout(git, f, scope, commit, runtime).value, value)
    ensures Bound(git, f, value)
  {
    hide ValidReport, ValidProduction, ValidProcess, ValidConfiguration, ProbeInputsAt, RuntimeInputsAt;
    var env := Checkout(git, f, scope, commit, runtime).value;
    assert ValidReview(env, value) && ValidLocal(env, Get(value, "local"));
    assert ReviewDigestAt(git, f, commit) == Some(f.digest(f.loads(env.review.value).value));
    assert Get(value, "sourceReviewSha256") == Str(f.digest(f.loads(env.review.value).value));
  }

  /** Both reports name one commit, and strict validation accepts in the checkout of it. */
  predicate CheckoutAccepts(git: Git, f: Foreign, scope: string, value: Json) {
    var commit, runtime := CommitOf(Get(value, "local")), RuntimeCommit(value);
    && value.Obj? && commit.Some? && CommitOf(Get(value, "production")) == commit && runtime.Some?
    && var env := Checkout(git, f, scope, commit.value, runtime.value);
    && env.Some? && Validates(env.value, value)
  }

  /**
   Frozen validation is strict validation in a checkout of the recorded commits: the two
   accept the same receipts, except that the frozen one also wants both reports to name one commit.
   */
  lemma FrozenIsCheckout(git: Git, f: Foreign, scope: string, value: Json)
    ensures FrozenAccepts(git, f, scope, value) <==> CheckoutAccepts(git, f, scope, value)
  {
    hide Validates, ProbeInputsAt, RuntimeInputsAt;
    if CheckoutAccepts(git, f, scope, value) {
      var commit, runtime := CommitOf(Get(value, "local")).value, RuntimeCommit(value).value;
      StrictNamesCommit(Checkout(git, f, scope, commit, runtime).value, value, commit);
      StrictIsBound(git, f, scope, value, commit, runtime);
    }
  }

  lemma StrictNamesCommit(env: Env, value: Json, commit: string)
    requires Validates(env, value) && CommitOf(Get(value, "local")) == Some(commit)
    ensures HexText(commit, 40)
  {
    assert ValidReport(Get(value, "local"), "local");
  }

  // ----- The publisher module and its hooks -----

  datatype InputsHook = LiveInputs | RecordedInputs(inputs: Json)
  datatype RuntimeHook = LiveRuntime | RuntimeAt(commit: string)
  datatype ReviewHook = LiveReview | Historical(bytes: Bytes)
  datatype ContractHook = LiveContract | ContractAt(commit: string)
  datatype Validator = Strict | FrozenValidator

  /** The working tree, as far as the publisher reads it. */
  datatype Tree = Tree(
    inputs: Json, runtimeInputs: Option<Json>, review: Option<Bytes>, contractSha: string, approval: Bytes)

  datatype Call =
    | Validate(value: Json)
    | Render(value: Json)
    | ValidateFrozen(value: Json, disk: bool)
    | RenderFrozen(value: Json, disk: bool)
    | RenderApproval(decision: Decision, approval: Json, value: Json, disk: bool)

  class Publisher {
    const memo: Memo
    const scope: string
    const tree: Tree
    var inputs: InputsHook
    var runtimeInputs: RuntimeHook
    var review: ReviewHook
    var contract: ContractHook
    var validate: Validator

    ghost predicate Valid()
      reads this, memo
    {
      memo.Valid()
    }

    constructor (memo: Memo, scope: string, tree: Tree)
      ensures this.memo == memo && this.scope == scope && this.tree == tree
      ensures inputs == LiveInputs && runtimeInputs == LiveRuntime && review == LiveReview
      ensures contract == LiveContract && validate == Strict
    {
      this.memo, this.scope, this.tree := memo, scope, tree;
      inputs, runtimeInputs, review, contract, validate := LiveInputs, LiveRuntime, LiveReview, LiveContract, Strict;
    }

    /** What the strict validator would read through the hooks as they are. */
    ghost function Surroundings(): Env
      reads this
    {
      Env(memo.f, scope,
          match inputs { case LiveInputs => tree.inputs case RecordedInputs(j) => j },
          match runtimeInputs {
            case LiveRuntime => tree.runtimeInputs
            case RuntimeAt(c) => RuntimeInputsAt(memo.git, memo.f, c)
          },
          match review { case LiveReview => tree.review case Historical(b) => Some(b) },
          match contract {
            case LiveContract => tree.contractSha
            case ContractAt(c) =>
              var sha := ShaAt(memo.git, memo.f, c, PUBLISHER);
              if sha.Some? then sha.value else ""
          })
    }

    /** The strict validator; false stands for any exception it raises. */
    method StrictValidate(value: Json) returns (ok: bool)
      requires Valid() && (contract.ContractAt? ==> ShaAt(memo.git, memo.f, contract.commit, PUBLISHER).Some?)
      modifies memo
      ensures Valid() && ok == Validates(Surroundings(), value)
    {
      hide Validates;
      var live := match inputs { case LiveInputs => tree.inputs case RecordedInputs(j) => j };
      var runtime := tree.runtimeInputs;
      if runtimeInputs.RuntimeAt? { runtime := memo.RuntimeInputs(runtimeInputs.commit); }
      var bytes := match review { case LiveReview => tree.review case Historical(b) => Some(b) };
      var sha := tree.contractSha;
      if contract.ContractAt? {
        var past := memo.PublicationContract(contract.commit);
        sha := past.value;
      }
      ok := SessionValidator.Validate(Env(memo.f, scope, live, runtime, bytes, sha), value);
    }

    /** The checks of the recorded bindings against the snapshots. */
    method CheckBindings(value: Json) returns (ok: bool)
      requires Valid()
      modifies memo
      ensures Valid() && ok == Bound(memo.git, memo.f, value)
    {
      var commit, runtime := RecordedCommit(value), RuntimeCommit(value);
      if commit.None? { return false; }
      var probe := memo.ProbeInputs(commit.value);
      if probe.None? || !Same(Get(value, "probeInputs"), probe.value) || runtime.None? { return false; }
      var built := memo.RuntimeInputs(runtime.value);
      if built.None? || !Same(Get(Get(Get(value, "local"), "build"), "inputs"), built.value) { return false; }
      var sha := memo.PublicationContract(commit.value);
      if sha.None? || !Same(Get(value, "publicationContractSha256"), Str(sha.value)) { return false; }
      var digest := memo.SourceReviewDigest(commit.value);
      ok := digest.Some? && Same(Get(value, "sourceReviewSha256"), Str(digest.value));
    }

    /**
     The frozen validator. `disk` is false when the temporary copy of the review cannot be
     written. On every way out the four hooks are what they were, and the answer depends on
     the commits only, not on the working tree.
     */
    method DoValidateFrozen(value: Json, disk: bool) returns (ok: bool)
      requires Valid()
      modifies this`inputs, this`runtimeInputs, this`review, this`contract, memo
      ensures Valid()
      ensures inputs == old(inputs) && runtimeInputs == old(runtimeInputs) && review == old(review) &&
              contract == old(contract)
      ensures ok == (disk && FrozenAccepts(memo.git, memo.f, scope, value))
    {
      hide Validates, Bound, Past, Show, ShaAt, RuntimeInputsAt, RecordedCommit, RuntimeCommit;
      var bound := CheckBindings(value);
      if !bound { return false; }
      PastIsRecorded(memo.git, memo.f, scope, value);
      var commit, runtime := RecordedCommit(value).value, RuntimeCommit(value).value;
      var originalInputs, originalRuntime, originalReview, originalContract := inputs, runtimeInputs, review, contract;
      inputs := RecordedInputs(Get(value, "probeInputs"));
      runtimeInputs := RuntimeAt(runtime);
      contract := ContractAt(commit);
      ok := false;
      if disk {
        var bytes := memo.GitBytes(commit, REVIEW);
        review := Historical(bytes.value);
        assert Surroundings() == Past(memo.git, memo.f, scope, value);
        ok := StrictValidate(value);
      }
      inputs, runtimeInputs, review, contract := originalInputs, originalRuntime, originalReview, originalContract;
    }

    /** Rendering calls the module's own `validate`, which may be the frozen one. */
    method DoRender(value: Json, disk: bool) returns (ok: bool)
      requires Valid() && contract == LiveContract
      modifies this`inputs, this`runtimeInputs, this`review, this`contract, memo
      ensures Valid()
      ensures inputs == old(inputs) && runtimeInputs == old(runtimeInputs) && review == old(review) &&
              contract == old(contract)
      ensures ok == match validate
                    case Strict => Validates(old(Surroundings()), value)
                    case FrozenValidator => disk && FrozenAccepts(memo.git, memo.f, scope, value)
    {
      hide Validates, FrozenAccepts;
      match validate
      case Strict => ok := StrictValidate(value);
      case FrozenValidator => ok := DoValidateFrozen(value, disk);
    }

    method DoRenderFrozen(value: Json, disk: bool) returns (ok: bool)
      requires Valid() && contract == LiveContract
      modifies this, memo
      ensures Valid() && validate == old(validate)
      ensures inputs == old(inputs) && runtimeInputs == old(runtimeInputs) && review == old(review) &&
              contract == old(contract)
      ensures ok == (disk && FrozenAccepts(memo.git, memo.f, scope, value))
    {
      var original := validate;
      validate := FrozenValidator;
      ok := DoRender(value, disk);
      validate := original;
    }

    /** The approval's own loop, given the frozen validator in place of the strict one. */
    method DoRenderApproval(d: Decision, approval: Json, value: Json, disk: bool) returns (ok: bool)
      requires Valid()
      modifies this`inputs, this`runtimeInputs, this`review, this`contract, memo
      ensures Valid()
      ensures inputs == old(inputs) && runtimeInputs == old(runtimeInputs) && review == old(review) &&
              contract == old(contract)
      ensures ok == (&& ShaAt(memo.git, memo.f, ANCHOR, APPROVAL) == Some(memo.f.sha256(tree.approval))
                     && Approves(memo.f, d, approval, value, disk && FrozenAccepts(memo.git, memo.f, scope, value)))
    {
      hide Approves, FrozenAccepts;
      var anchored := memo.ApprovalSource();
      if anchored.None? || memo.f.sha256(tree.approval) != anchored.value { return false; }
      var valid := DoValidateFrozen(value, disk);
      ok := Accept(memo.f, d, approval, value, valid);
    }

    /** What a call answers, whatever was called before it. */
    ghost predicate Answer(env: Env, call: Call) {
      match call
      case Validate(value) => Validates(env, value)
      case Render(value) => Validates(env, value)
      case ValidateFrozen(value, disk) => disk && FrozenAccepts(memo.git, memo.f, scope, value)
      case RenderFrozen(value, disk) => disk && FrozenAccepts(memo.git, memo.f, scope, value)
      case RenderApproval(d, approval, value, disk) =>
        && ShaAt(memo.git, memo.f, ANCHOR, APPROVAL) == Some(memo.f.sha256(tree.approval))
        && Approves(memo.f, d, approval, value, disk && FrozenAccepts(memo.git, memo.f, scope, value))
    }

    /**
     Any sequence of calls, returning or raising: afterwards every hook is what it was, and
     each call, strict ones among them, answered as if it had been the only one.
     */
    method RunCalls(calls: seq<Call>) returns (answers: seq<bool>)
      requires Valid() && contract == LiveContract && validate == Strict
      modifies this, memo
      ensures Valid() && contract == LiveContract && validate == Strict
      ensures inputs == old(inputs) && runtimeInputs == old(runtimeInputs) && review == old(review)
      ensures |answers| == |calls|
      ensures forall i :: 0 <= i < |calls| ==> answers[i] == Answer(old(Surroundings()), calls[i])
    {
      hide Validates, FrozenAccepts, Approves;
      answers := [];
      var i := 0;
      while i < |calls|
        invariant 0 <= i <= |calls| && |answers| == i
        invariant Valid() && contract == LiveContract && validate == Strict
        invariant inputs == old(inputs) && runtimeInputs == old(runtimeInputs) && review == old(review)
        invariant forall k :: 0 <= k < i ==> answers[k] == Answer(old(Surroundings()), calls[k])
      {
        var ok: bool;
        match calls[i] {
          case Validate(value) => ok := StrictValidate(value);
          case Render(value) => ok := DoRender(value, true);
          case ValidateFrozen(value, disk) => ok := DoValidateFrozen(value, disk);
          case RenderFrozen(value, disk) => ok := DoRenderFrozen(value, disk);
          case RenderApproval(d, approval, value, disk) => ok := DoRenderApproval(d, approval, value, disk);
        }
        answers := answers + [ok];
        i := i + 1;
      }
    }
  }
}
