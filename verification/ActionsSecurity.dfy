/**
 The workflow contract over a loaded workflow (scripts/actions-security-contract.rb). Once the tree
 check has passed, what the loaded hashes say is what the syntax tree says.
 */
module ActionsSecurity {
  import opened Common
  import opened Texts
  import opened YamlTree

  /** How the YAML library resolves an unquoted, untagged scalar. */
  datatype Kind = IsString | IsNil | IsOther

  type Scanner = string -> Kind

  datatype Value =
    | Text(s: string)
    | Plain(kind: Kind, text: string)
    | List(items: seq<Value>)
    | Dict(pairs: seq<(Value, Value)>)

  function LoadScalar(scan: Scanner, node: Node): Value
    requires node.Scalar?
  {
    if node.quoted || scan(node.text) == IsString then Text(node.text) else Plain(scan(node.text), node.text)
  }

  /** Aliases are refused by the loader; the tree check has refused them before. */
  function Load(scan: Scanner, node: Node): Value
    decreases node, 0
  {
    match node
    case Scalar(_, _) => LoadScalar(scan, node)
    case Alias => Plain(IsNil, "")
    case Sequence(items) => List(LoadItems(scan, items))
    case Mapping(pairs) => Dict(LoadPairs(scan, pairs))
  }

  function LoadItems(scan: Scanner, items: seq<Node>): (r: seq<Value>)
    ensures |r| == |items|
    decreases items, 0
  {
    if items == [] then [] else [Load(scan, items[0])] + LoadItems(scan, items[1..])
  }

  function LoadPair(scan: Scanner, pair: (Node, Node)): (Value, Value)
    decreases pair, 0
  {
    (Load(scan, pair.0), Load(scan, pair.1))
  }

  function LoadPairs(scan: Scanner, pairs: seq<(Node, Node)>): (r: seq<(Value, Value)>)
    ensures |r| == |pairs|
    decreases pairs, 0
  {
    if pairs == [] then [] else [LoadPair(scan, pairs[0])] + LoadPairs(scan, pairs[1..])
  }

  /** The value a hash holds for a string key: of several entries the last. */
  function Fetch(pairs: seq<(Value, Value)>, key: string): Option<Value> {
    if pairs == [] then None
    else if pairs[|pairs| - 1].0 == Text(key) then Some(pairs[|pairs| - 1].1)
    else Fetch(pairs[..|pairs| - 1], key)
  }

  predicate IsNilValue(v: Value) {
    v.Plain? && v.kind == IsNil
  }

  /** `hash[key]`, with nil for a missing key. */
  function Lookup(pairs: seq<(Value, Value)>, key: string): Value {
    var v := Fetch(pairs, key);
    if v.Some? then v.value else Plain(IsNil, "")
  }

  // ----- The rules on the loaded workflow -----

  datatype Violation =
    | RootIsNoMapping
    | InTree(error: Error)
    | Invalid
    | JobsAreNoMapping
    | Unpinned(job: Value, use: Value)
    | NotReadOnly(name: string)

  predicate Segment(s: string) {
    s != "" && forall i :: 0 <= i < |s| ==> !Blank(s[i]) && s[i] != '@'
  }

  predicate PinnedAt(use: string, i: int, j: int) {
    && 0 <= i < j < |use| && use[i] == '/' && use[j] == '@'
    && Segment(use[..i]) && Segment(use[i + 1..j]) && HexText(use[j + 1..], 40)
  }

  /** `owner/action@` and a full commit id. */
  predicate Pinned(use: string) {
    exists i, j :: 0 <= i < j < |use| && PinnedAt(use, i, j)
  }

  predicate Acceptable(use: Value) {
    use.Text? && (StartsWith(use.s, "./") || Pinned(use.s))
  }

  /** `step["uses"]`; a step that is a string is asked for a substring. */
  function StepUses(step: Value): Option<Value> {
    match step
    case Dict(pairs) => Some(Lookup(pairs, "uses"))
    case Text(s) => Some(if Contains(s, "uses") then Text("uses") else Plain(IsNil, ""))
    case _ => None
  }

  function AllUses(steps: seq<Value>): Option<seq<Value>> {
    if steps == [] then Some([])
    else
      var first, rest := StepUses(steps[0]), AllUses(steps[1..]);
      if first.None? || rest.None? then None else Some([first.value] + rest.value)
  }

  /** The `uses` of a job and of its steps, or none where the source raises. */
  function JobUses(job: seq<(Value, Value)>): Option<seq<Value>> {
    var steps := Fetch(job, "steps");
    var ofSteps :=
      if steps.None? then Some([])
      else match steps.value
           case List(items) => AllUses(items)
           case Dict(pairs) => if pairs == [] then Some([]) else None
           case _ => None;
    if ofSteps.None? then None else Some([Lookup(job, "uses")] + ofSteps.value)
  }

  predicate UsesPinned(job: seq<(Value, Value)>) {
    var uses := JobUses(job);
    uses.Some? && forall i :: 0 <= i < |uses.value| ==> IsNilValue(uses.value[i]) || Acceptable(uses.value[i])
  }

  predicate ReadOnly(mode: Value) {
    mode == Text("read") || mode == Text("none")
  }

  /** The job's own mode, or else the workflow's. */
  function EffectiveMode(workflow: seq<(Value, Value)>, job: seq<(Value, Value)>): Value {
    var own := Fetch(job, "cache-mode");
    if own.Some? then own.value else Lookup(workflow, "cache-mode")
  }

  /** The jobs of a workflow file that run code under the emulator. */
  function ReadOnlyJobs(name: string): seq<string> {
    if name == "sdk-latest.yml" then ["latest-sdk-under-exec"]
    else if name == "ci.yml" then ["sdk-smoke-python", "sdk-smoke-go", "functions-python"]
    else []
  }

  predicate JobReadOnly(workflow: seq<(Value, Value)>, jobs: seq<(Value, Value)>, name: string) {
    var job := Fetch(jobs, name);
    job.Some? && job.value.Dict? && ReadOnly(EffectiveMode(workflow, job.value.pairs))
  }

  predicate JobPinned(job: Value) {
    job.Dict? ==> UsesPinned(job.pairs)
  }

  /** What the loaded workflow must satisfy. */
  predicate LoadedClean(workflow: seq<(Value, Value)>, name: string) {
    var jobs := Fetch(workflow, "jobs");
    && jobs.Some? && jobs.value.Dict?
    && (forall i :: 0 <= i < |jobs.value.pairs| ==> JobPinned(jobs.value.pairs[i].1))
    && (forall k :: 0 <= k < |ReadOnlyJobs(name)| ==> JobReadOnly(workflow, jobs.value.pairs, ReadOnlyJobs(name)[k]))
  }

  // ----- The rules by positions -----

  /** `owner/action`, an at sign, and forty hexadecimal digits to the end. */
  predicate EndsInCommit(use: string) {
    var at := |use| - 41;
    && at >= 3 && use[at] == '@'
    && (forall i :: at < i < |use| ==> '0' <= use[i] <= '9' || 'a' <= use[i] <= 'f')
    && (forall i :: 0 <= i < at ==> use[i] !in {' ', '\t', '\n', '\r', '@'} && use[i] as int !in {11, 12})
    && exists i :: 0 < i < at - 1 && use[i] == '/'
  }

  /** Nothing is used, or something of the repository itself, or something at a full commit. */
  predicate UseOk(v: Value) {
    || (v.Plain? && v.kind == IsNil)
    || (v.Text? && |v.s| >= 2 && v.s[0] == '.' && v.s[1] == '/')
    || (v.Text? && EndsInCommit(v.s))
  }

  /** A step is a mapping whose `uses` is in order, or a text that does not say `uses`. */
  ghost predicate StepOk(step: Value) {
    || (step.Dict? && (Fetch(step.pairs, "uses").Some? ==> UseOk(Fetch(step.pairs, "uses").value)))
    || (step.Text? && forall i :: !OccursAt(step.s, "uses", i))
  }

  ghost predicate JobOk(job: seq<(Value, Value)>) {
    var own, steps := Fetch(job, "uses"), Fetch(job, "steps");
    && (own.Some? ==> UseOk(own.value))
    && (steps.Some? ==>
          || steps.value == Dict([])
          || (steps.value.List? && forall i :: 0 <= i < |steps.value.items| ==> StepOk(steps.value.items[i])))
  }

  /** The jobs that run code of others under the emulator. */
  predicate GuardedJob(name: string, job: string) {
    || (name == "sdk-latest.yml" && job == "latest-sdk-under-exec")
    || (name == "ci.yml" && job in {"sdk-smoke-python", "sdk-smoke-go", "functions-python"})
  }

  /** The job is there, and its own mode, or without one the workflow's, is `read` or `none`. */
  predicate ModeOk(workflow: seq<(Value, Value)>, jobs: seq<(Value, Value)>, job: string) {
    && Fetch(jobs, job).Some? && Fetch(jobs, job).value.Dict?
    && var own := Fetch(Fetch(jobs, job).value.pairs, "cache-mode");
    && var mode := if own.Some? then own else Fetch(workflow, "cache-mode");
    && mode.Some? && mode.value in {Text("read"), Text("none")}
  }

  ghost predicate LoadedOk(workflow: seq<(Value, Value)>, name: string) {
    var jobs := Fetch(workflow, "jobs");
    && jobs.Some? && jobs.value.Dict?
    && (forall i :: 0 <= i < |jobs.value.pairs| && jobs.value.pairs[i].1.Dict? ==> JobOk(jobs.value.pairs[i].1.pairs))
    && (forall job :: GuardedJob(name, job) ==> ModeOk(workflow, jobs.value.pairs, job))
  }

  lemma PinnedIff(use: string)
    ensures Pinned(use) <==> EndsInCommit(use)
  {
    hide EndsInCommit, Segment, HexText;
    if i, j :| PinnedAt(use, i, j) { PinnedEnds(use, i, j); }
    if EndsInCommit(use) { EndsPinned(use); }
  }

  /** Every character of a segment is neither blank nor an at sign. */
  lemma SegmentAt(use: string, from: nat, to: nat, k: nat)
    requires from <= k < to <= |use| && Segment(use[from..to])
    ensures use[k] !in {' ', '\t', '\n', '\r', '@'} && use[k] as int !in {11, 12}
  {
    assert use[from..to][k - from] == use[k];
  }

  lemma PinnedEnds(use: string, i: int, j: int)
    requires PinnedAt(use, i, j)
    ensures EndsInCommit(use)
  {
    hide Segment;
    assert j == |use| - 41;
    forall k | j < k < |use| ensures '0' <= use[k] <= '9' || 'a' <= use[k] <= 'f' {
      assert use[j + 1..][k - j - 1] == use[k];
    }
    assert use[..i] == use[0..i];
    assert 0 < i < j - 1 by { SegmentIsText(use[..i]); SegmentIsText(use[i + 1..j]); }
    forall k | 0 <= k < j ensures use[k] !in {' ', '\t', '\n', '\r', '@'} && use[k] as int !in {11, 12} {
      if k < i { SegmentAt(use, 0, i, k); }
      if k > i { SegmentAt(use, i + 1, j, k); }
    }
  }

  lemma SegmentIsText(s: string)
    requires Segment(s)
    ensures |s| > 0
  {
  }

  lemma EndsPinned(use: string)
    requires EndsInCommit(use)
    ensures Pinned(use)
  {
    var at := |use| - 41;
    var i :| 0 < i < at - 1 && use[i] == '/';
    var owner, action, sha := use[..i], use[i + 1..at], use[at + 1..];
    assert forall k :: 0 <= k < |owner| ==> owner[k] == use[k];
    assert forall k :: 0 <= k < |action| ==> action[k] == use[i + 1 + k];
    assert forall k :: 0 <= k < |sha| ==> sha[k] == use[at + 1 + k];
    assert PinnedAt(use, i, at);
  }

  lemma AcceptableIff(v: Value)
    ensures IsNilValue(v) || Acceptable(v) <==> UseOk(v)
  {
    hide Pinned, EndsInCommit;
    if v.Text? {
      PinnedIff(v.s);
      assert StartsWith(v.s, "./") <==> |v.s| >= 2 && v.s[0] == '.' && v.s[1] == '/' by {
        if |v.s| >= 2 { assert v.s[..2] == [v.s[0], v.s[1]]; }
      }
    }
  }

  lemma {:induction false} AllUsesAre(steps: seq<Value>)
    ensures AllUses(steps).Some? <==> forall i :: 0 <= i < |steps| ==> StepUses(steps[i]).Some?
    ensures AllUses(steps).Some? ==>
              && |AllUses(steps).value| == |steps|
              && forall i :: 0 <= i < |steps| ==> StepUses(steps[i]) == Some(AllUses(steps).value[i])
  {
    hide StepUses;
    if steps != [] {
      AllUsesAre(steps[1..]);
      assert forall i :: 0 < i < |steps| ==> steps[i] == steps[1..][i - 1];
    }
  }

  lemma StepIff(step: Value)
    ensures StepOk(step) <==>
            StepUses(step).Some? && (IsNilValue(StepUses(step).value) || Acceptable(StepUses(step).value))
  {
    hide Acceptable, UseOk;
    if StepUses(step).Some? { AcceptableIff(StepUses(step).value); }
    assert UseOk(Plain(IsNil, "")) && !UseOk(Text("uses")) by { NilIsOk(); }
    if step.Text? { FindFromIs(step.s, "uses", 0); }
    if step.Dict? && Fetch(step.pairs, "uses").Some? { AcceptableIff(Fetch(step.pairs, "uses").value); }
  }

  lemma NilIsOk()
    ensures UseOk(Plain(IsNil, "")) && !UseOk(Text("uses"))
  {
    assert "uses"[0] == 'u' && |"uses"| == 4;
  }

  /** The check of a job's uses, told by positions. */
  lemma UsesIff(job: seq<(Value, Value)>)
    ensures UsesPinned(job) <==> JobOk(job)
  {
    hide Acceptable, UseOk, StepOk, StepUses, AllUses;
    var steps := Fetch(job, "steps");
    AcceptableIff(Lookup(job, "uses"));
    NilIsOk();
    if steps.Some? && steps.value.List? {
      var items := steps.value.items;
      AllUsesAre(items);
      forall i | 0 <= i < |items|
        ensures StepOk(items[i]) <==>
                StepUses(items[i]).Some? &&
                  (IsNilValue(StepUses(items[i]).value) || Acceptable(StepUses(items[i]).value))
      {
        StepIff(items[i]);
      }
      ListIff(job, items);
    } else if JobUses(job).Some? {
      assert JobUses(job).value == [Lookup(job, "uses")];
      assert JobUses(job).value[0] == Lookup(job, "uses");
    }
  }

  lemma ListIff(job: seq<(Value, Value)>, items: seq<Value>)
    requires Fetch(job, "steps") == Some(List(items))
    ensures UsesPinned(job) <==>
              && (IsNilValue(Lookup(job, "uses")) || Acceptable(Lookup(job, "uses")))
              && forall i :: 0 <= i < |items| ==>
                   StepUses(items[i]).Some? &&
                     (IsNilValue(StepUses(items[i]).value) || Acceptable(StepUses(items[i]).value))
  {
    hide Acceptable, StepUses, AllUses, IsNilValue;
    AllUsesAre(items);
    var uses := JobUses(job);
    if uses.Some? {
      assert uses.value[0] == Lookup(job, "uses");
      assert forall i :: 0 <= i < |items| ==> uses.value[i + 1] == StepUses(items[i]).value;
      if forall i :: 0 <= i < |uses.value| ==> IsNilValue(uses.value[i]) || Acceptable(uses.value[i]) {
        forall i | 0 <= i < |items| ensures IsNilValue(StepUses(items[i]).value) ||
          Acceptable(StepUses(items[i]).value) {
          assert uses.value[i + 1] == StepUses(items[i]).value;
        }
      }
    }
  }

  lemma ModeIff(workflow: seq<(Value, Value)>, jobs: seq<(Value, Value)>, job: string)
    ensures JobReadOnly(workflow, jobs, job) <==> ModeOk(workflow, jobs, job)
  {
  }

  lemma GuardedIff(name: string, job: string)
    ensures GuardedJob(name, job) <==> job in ReadOnlyJobs(name)
  {
  }

  lemma LoadedIff(workflow: seq<(Value, Value)>, name: string)
    ensures LoadedClean(workflow, name) <==> LoadedOk(workflow, name)
  {
    hide UsesPinned, JobOk, JobReadOnly, ModeOk, ReadOnlyJobs, GuardedJob;
    var fetched := Fetch(workflow, "jobs");
    if fetched.Some? && fetched.value.Dict? {
      var jobs := fetched.value.pairs;
      forall i | 0 <= i < |jobs| && jobs[i].1.Dict? ensures UsesPinned(jobs[i].1.pairs) <==> JobOk(jobs[i].1.pairs) {
        UsesIff(jobs[i].1.pairs);
      }
      forall job ensures (GuardedJob(name, job) <==> job in ReadOnlyJobs(name))
                         && (JobReadOnly(workflow, jobs, job) <==> ModeOk(workflow, jobs, job))
      {
        GuardedIff(name, job);
        ModeIff(workflow, jobs, job);
      }
      forall k | 0 <= k < |ReadOnlyJobs(name)| ensures GuardedJob(name, ReadOnlyJobs(name)[k]) { }
    }
  }

  // ----- The checks as the code runs them -----

  /** Appends an error for every action that a job uses without pinning it. */
  method UnpinnedUses(key: Value, job: seq<(Value, Value)>) returns (r: Option<seq<Violation>>)
    ensures r == Some([]) <==> JobOk(job)
  {
    hide JobOk;
    UsesIff(job);
    var uses := JobUses(job);
    if uses.None? { return None; }
    var errors: seq<Violation> := [];
    var k := 0;
    while k < |uses.value|
      invariant 0 <= k <= |uses.value|
      invariant errors == [] <==> forall m :: 0 <= m < k ==> IsNilValue(uses.value[m]) || Acceptable(uses.value[m])
    {
      var use := uses.value[k];
      if !IsNilValue(use) && !Acceptable(use) { errors := errors + [Unpinned(key, use)]; }
      k := k + 1;
    }
    r := Some(errors);
  }

  /** The part of the checks that reads jobs, uses and cache modes. */
  method LoadedViolations(workflow: seq<(Value, Value)>, name: string) returns (errors: seq<Violation>)
    ensures errors == [] <==> LoadedOk(workflow, name)
  {
    hide LoadedOk, JobOk, UsesPinned;
    LoadedIff(workflow, name);
    errors := [];
    var fetched := Fetch(workflow, "jobs");
    if fetched.None? { return [Invalid]; }
    if !fetched.value.Dict? { return [JobsAreNoMapping]; }
    var jobs := fetched.value.pairs;
    var i := 0;
    while i < |jobs|
      invariant 0 <= i <= |jobs|
      invariant errors == [] <==> forall k :: 0 <= k < i ==> JobPinned(jobs[k].1)
    {
      if jobs[i].1.Dict? {
        UsesIff(jobs[i].1.pairs);
        var found := UnpinnedUses(jobs[i].0, jobs[i].1.pairs);
        if found.None? {
          assert !JobPinned(jobs[i].1);
          return [Invalid];
        }
        errors := errors + found.value;
      }
      i := i + 1;
    }
    var names := ReadOnlyJobs(name);
    var n := 0;
    ghost var loaded := errors;
    while n < |names|
      invariant 0 <= n <= |names|
      invariant errors == [] <==> loaded == [] && forall k :: 0 <= k < n ==> JobReadOnly(workflow, jobs, names[k])
    {
      var job := Fetch(jobs, names[n]);
      if job.None? || !job.value.Dict? {
        assert !JobReadOnly(workflow, jobs, names[n]);
        return [Invalid];
      }
      if !ReadOnly(EffectiveMode(workflow, job.value.pairs)) { errors := errors + [NotReadOnly(names[n])]; }
      n := n + 1;
    }
  }

  /** The whole check: the tree first, and only a clean tree is loaded. */
  method Violations(scan: Scanner, root: Option<Node>, name: string) returns (errors: seq<Violation>)
    ensures errors == [] <==>
              root.Some? && root.value.Mapping? && SoundTree(root.value, []) &&
                LoadedOk(LoadPairs(scan, root.value.pairs), name)
  {
    hide LoadedOk, SoundTree, Errors;
    if root.None? || !root.value.Mapping? { return [RootIsNoMapping]; }
    NoErrorIffSound(root.value, []);
    var inspector := new Inspector();
    inspector.Inspect(root.value, []);
    if inspector.errors != [] {
      return seq(|inspector.errors|,
                 i requires 0 <= i < |inspector.errors| reads inspector => InTree(inspector.errors[i]));
    }
    errors := LoadedViolations(LoadPairs(scan, root.value.pairs), name);
  }

  // ----- What is loaded is what is written -----

  lemma {:induction false} LoadedPair(scan: Scanner, pairs: seq<(Node, Node)>, i: nat)
    requires i < |pairs|
    ensures LoadPairs(scan, pairs)[i] == LoadPair(scan, pairs[i])
  {
    if i > 0 { LoadedPair(scan, pairs[1..], i - 1); }
  }

  /** The key scalar that a string key finds: its text is the key and it loads as a string. */
  predicate KeyLoadsAs(scan: Scanner, key: Node, name: string) {
    key.Scalar? && key.text == name && (key.quoted || scan(name) == IsString)
  }

  ghost predicate EntryAt(scan: Scanner, node: Node, name: string, i: nat) {
    node.Mapping? && i < |node.pairs| && KeyLoadsAs(scan, node.pairs[i].0, name)
  }

  predicate LastAt(pairs: seq<(Value, Value)>, key: string, i: nat) {
    i < |pairs| && pairs[i].0 == Text(key) && forall j :: i < j < |pairs| ==> pairs[j].0 != Text(key)
  }

  lemma {:induction false} FetchFinds(pairs: seq<(Value, Value)>, key: string)
    ensures Fetch(pairs, key).None? <==> forall i :: 0 <= i < |pairs| ==> pairs[i].0 != Text(key)
    ensures forall i: nat :: LastAt(pairs, key, i) ==> Fetch(pairs, key) == Some(pairs[i].1)
  {
    if pairs != [] {
      var before := pairs[..|pairs| - 1];
      FetchFinds(before, key);
      forall i: nat | LastAt(pairs, key, i) ensures Fetch(pairs, key) == Some(pairs[i].1) {
        if i < |before| { assert LastAt(before, key, i); }
      }
    }
  }

  /**
   A string lookup in a loaded hash is the one entry of the syntax tree with that key, and
   there is nothing where the tree has no such entry.
   */
  lemma LookupIsEntry(scan: Scanner, node: Node, path: Path, name: string)
    requires node.Mapping? && Sound(node, path)
    ensures Fetch(LoadPairs(scan, node.pairs), name).None? <==> forall i: nat :: !EntryAt(scan, node, name, i)
    ensures forall i: nat :: EntryAt(scan, node, name, i) ==>
              Fetch(LoadPairs(scan, node.pairs), name) == Some(Load(scan, node.pairs[i].1))
    ensures forall i: nat, j: nat :: EntryAt(scan, node, name, i) && EntryAt(scan, node, name, j) ==> i == j
  {
    var loaded := LoadPairs(scan, node.pairs);
    forall i | 0 <= i < |loaded|
      ensures loaded[i].1 == Load(scan, node.pairs[i].1) &&
              (loaded[i].0 == Text(name) <==> EntryAt(scan, node, name, i))
    {
      LoadedPair(scan, node.pairs, i);
      assert node.pairs[i].0.Scalar?;
    }
    FetchFinds(loaded, name);
    forall i: nat | EntryAt(scan, node, name, i) ensures Fetch(loaded, name) == Some(Load(scan, node.pairs[i].1)) {
      assert LastAt(loaded, name, i);
    }
  }

  // ----- A workflow without violations -----

  /** What the check accepts. */
  ghost predicate Clean(scan: Scanner, root: Node, name: string) {
    root.Mapping? && SoundTree(root, []) && LoadedOk(LoadPairs(scan, root.pairs), name)
  }

  /** The one entry of a sound mapping that a successful lookup came from. */
  lemma EntryOf(scan: Scanner, node: Node, path: Path, name: string) returns (i: nat)
    requires node.Mapping? && Sound(node, path) && Fetch(LoadPairs(scan, node.pairs), name).Some?
    ensures EntryAt(scan, node, name, i)
    ensures Fetch(LoadPairs(scan, node.pairs), name) == Some(Load(scan, node.pairs[i].1))
  {
    LookupIsEntry(scan, node, path, name);
    i :| EntryAt(scan, node, name, i);
  }

  /** A node that loads as a hash is a mapping, and its hash is the mapping's. */
  lemma DictIsMapping(scan: Scanner, node: Node)
    requires Load(scan, node).Dict?
    ensures node.Mapping? && Load(scan, node).pairs == LoadPairs(scan, node.pairs)
  {
  }

  /** The mode that is written where the job's effective mode comes from. */
  ghost predicate WrittenReadOnly(scan: Scanner, node: Node) {
    exists c: nat :: EntryAt(scan, node, "cache-mode", c) && node.pairs[c].1.Scalar? &&
      node.pairs[c].1.text in {"read", "none"}
  }

  /** Where the jobs and the job of the name stand in the tree. */
  ghost predicate JobAt(scan: Scanner, root: Node, job: string, j: nat, k: nat) {
    && EntryAt(scan, root, "jobs", j) && EntryAt(scan, root.pairs[j].1, job, k) && root.pairs[j].1.pairs[k].1.Mapping?
  }

  lemma FetchedModeIsWritten(scan: Scanner, node: Node, path: Path)
    requires node.Mapping? && Sound(node, path)
    requires var mode := Fetch(LoadPairs(scan, node.pairs), "cache-mode"); mode.Some? && ReadOnly(mode.value)
    ensures WrittenReadOnly(scan, node)
  {
    var c := EntryOf(scan, node, path, "cache-mode");
    assert node.pairs[c].1.Scalar?;
  }

  /**
   In a workflow without violations each job that runs code under the emulator stands once in
   the tree, and the mode that governs it, its own or else the workflow's, is written there
   as `read` or `none`.
   */
  lemma GoverningModeIsReadOnly(scan: Scanner, root: Node, name: string, job: string)
    requires Clean(scan, root, name) && GuardedJob(name, job)
    ensures exists j: nat, k: nat ::
              && JobAt(scan, root, job, j, k)
              && var node := root.pairs[j].1.pairs[k].1;
                 if exists c: nat :: EntryAt(scan, node, "cache-mode", c) then WrittenReadOnly(scan, node)
                 else WrittenReadOnly(scan, root)
  {
    hide JobOk;
    var workflow := LoadPairs(scan, root.pairs);
    SoundHere(root, []);
    var j := EntryOf(scan, root, [], "jobs");
    var jobs := root.pairs[j].1;
    DictIsMapping(scan, jobs);
    SoundBelow(root, [], Value(j));
    SoundHere(jobs, [StepOf(root, Value(j))]);
    assert ModeOk(workflow, LoadPairs(scan, jobs.pairs), job);
    var k := EntryOf(scan, jobs, [StepOf(root, Value(j))], job);
    var node := jobs.pairs[k].1;
    DictIsMapping(scan, node);
    var path := [StepOf(root, Value(j))] + [StepOf(jobs, Value(k))];
    SoundBelow(jobs, [StepOf(root, Value(j))], Value(k));
    SoundHere(node, path);
    LookupIsEntry(scan, node, path, "cache-mode");
    if exists c: nat :: EntryAt(scan, node, "cache-mode", c) {
      FetchedModeIsWritten(scan, node, path);
    } else {
      FetchedModeIsWritten(scan, root, []);
    }
    assert JobAt(scan, root, job, j, k);
  }

  lemma {:induction false} PathIsAsLong(node: Node, a: Address)
    requires At(node, a).Some?
    ensures |PathTo(node, a)| == |a|
  {
    if a != [] { PathIsAsLong(Child(node, a[0]).value, a[1..]); }
  }

  /** The key written `jobs` is the entry that the lookup of the jobs found, and its value a mapping. */
  lemma JobsAreThere(scan: Scanner, root: Node, name: string, i: nat)
    requires Clean(scan, root, name) && Sound(root, []) && i < |root.pairs|
    requires root.pairs[i].0.Scalar? && root.pairs[i].0.text == "jobs"
    ensures EntryAt(scan, root, "jobs", i) && root.pairs[i].1.Mapping?
  {
    var j := EntryOf(scan, root, [], "jobs");
    assert root.pairs[j].0.Scalar? && root.pairs[j].0.text == "jobs";
    assert i == j;
    DictIsMapping(scan, root.pairs[j].1);
  }

  /** In a workflow without violations a cache mode stands at the root or in a named job, nowhere else. */
  lemma CacheModesArePlaced(scan: Scanner, root: Node, name: string, a: Address, i: nat)
    requires Clean(scan, root, name)
    requires At(root, a).Some? && At(root, a).value.Mapping? && i < |At(root, a).value.pairs|
    requires At(root, a).value.pairs[i].0.Scalar? && At(root, a).value.pairs[i].0.text == "cache-mode"
    ensures var mode := At(root, a).value.pairs[i].1;
            mode.Scalar? && mode.text in {"read", "write", "write-only", "none"}
    ensures a == [] || (|a| == 2 && a[0].Value? && EntryAt(scan, root, "jobs", a[0].i) && a[1].Value?)
  {
    assert Sound(At(root, a).value, [] + PathTo(root, a));
    assert [] + PathTo(root, a) == PathTo(root, a);
    PathIsAsLong(root, a);
    if a != [] {
      assert PathTo(root, a)[0] == StepOf(root, a[0]);
      SoundHere(root, []);
      JobsAreThere(scan, root, name, a[0].i);
      var jobs := root.pairs[a[0].i].1;
      assert At(root, a) == At(jobs, a[1..]) == At(Child(jobs, a[1]).value, a[1..][1..]);
      assert a[1..][1..] == [];
      SoundBelow(root, [], a[0]);
      SoundHere(jobs, [StepOf(root, a[0])]);
    }
  }
}
