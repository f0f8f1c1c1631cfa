/**
 The steps of the heavy-verification workflow (scripts/heavy-verification-contract.rb): which
 expressions the fields of a step may use, at any depth, and in which order the steps of a job
 must come.
 */
module WorkflowSteps {
  import opened Common
  import opened Texts
  import opened Expressions

  function Body(s: string, e: Span): string {
    if e.start <= e.end <= |s| then s[e.start..e.end] else ""
  }

  // ----- Naming expressions -----

  /** The expressions of a text that use anything but naming tokens. */
  function Unnamed(s: string, spans: seq<Span>): seq<string> {
    if spans == [] then []
    else (if Residue(Body(s, spans[0])) == "" then [] else [Body(s, spans[0])]) + Unnamed(s, spans[1..])
  }

  lemma {:induction false} UnnamedIs(s: string, spans: seq<Span>)
    ensures Unnamed(s, spans) == [] <==> forall k :: 0 <= k < |spans| ==> Residue(Body(s, spans[k])) == ""
  {
    hide Residue, Body;
    if spans != [] {
      UnnamedIs(s, spans[1..]);
    }
  }

  /** A text passes if and only if each of its expressions is a concatenation of naming tokens. */
  lemma NamingIsExact(s: string)
    ensures Unnamed(s, Scan(s, 0)) == [] <==>
              forall k :: 0 <= k < |Scan(s, 0)| ==> exists ts :: AllTokens(ts) && Joined(ts) == Body(s, Scan(s, 0)[k])
  {
    UnnamedIs(s, Scan(s, 0));
    hide Residue, Scan;
    forall k | 0 <= k < |Scan(s, 0)|
      ensures Residue(Body(s, Scan(s, 0)[k])) == "" <==>
              exists ts :: AllTokens(ts) && Joined(ts) == Body(s, Scan(s, 0)[k])
    {
      ResidueIsExact(Body(s, Scan(s, 0)[k]));
    }
  }

  // ----- Step expressions -----

  /** One or more of `a` to `z` and `_`. */
  predicate Word(s: string) {
    s != "" && forall i :: 0 <= i < |s| ==> 'a' <= s[i] <= 'z' || s[i] == '_'
  }

  predicate WordAfter(s: string, prefix: string) {
    prefix <= s && Word(s[|prefix|..])
  }

  predicate StepExpression(e: string) {
    || WordAfter(e, "needs.plan.outputs.")
    || (e != "" && e[|e| - 1] == ')' && WordAfter(e[..|e| - 1], "fromJSON(needs.plan.outputs."))
    || e == "needs.mutants.result" || WordAfter(e, "matrix.") || e == "runner.temp"
    || exists i :: 0 <= i < |e| && WordAfter(e[..i], "steps.") && WordAfter(e[i..], ".outputs.")
  }

  predicate IsWord(w: string) {
    w != "" && forall i :: 0 <= i < |w| ==> 'a' <= w[i] <= 'z' || w[i] == '_'
  }

  lemma WordAfterIff(s: string, prefix: string)
    ensures WordAfter(s, prefix) <==> exists w :: IsWord(w) && s == prefix + w
  {
    if WordAfter(s, prefix) { assert s == prefix + s[|prefix|..] && IsWord(s[|prefix|..]); }
    if w :| IsWord(w) && s == prefix + w { assert s[|prefix|..] == w; }
  }

  /** Which expressions a step may use: the six forms, with words of lower-case letters and `_`. */
  lemma StepExpressionIff(e: string)
    ensures StepExpression(e) <==>
              || e == "needs.mutants.result" || e == "runner.temp"
              || (exists w :: IsWord(w) && (e == "needs.plan.outputs." + w || e == "matrix." + w))
              || (exists w :: IsWord(w) && e == "fromJSON(needs.plan.outputs." + w + ")")
              || exists v, w :: IsWord(v) && IsWord(w) && e == "steps." + v + (".outputs." + w)
  {
    hide WordAfter, IsWord;
    WordAfterIff(e, "needs.plan.outputs.");
    WordAfterIff(e, "matrix.");
    if e != "" {
      var n := |e| - 1;
      WordAfterIff(e[..n], "fromJSON(needs.plan.outputs.");
      if e[n] == ')' && WordAfter(e[..n], "fromJSON(needs.plan.outputs.") {
        var w :| IsWord(w) && e[..n] == "fromJSON(needs.plan.outputs." + w;
        assert e == e[..n] + ")";
      }
      if w :| IsWord(w) && e == "fromJSON(needs.plan.outputs." + w + ")" {
        assert e[..n] == "fromJSON(needs.plan.outputs." + w && e[n] == ')';
      }
    }
    StepOutputIff(e);
  }

  lemma StepOutputIff(e: string)
    ensures (exists i :: 0 <= i < |e| && WordAfter(e[..i], "steps.") && WordAfter(e[i..], ".outputs.")) <==>
              exists v, w :: IsWord(v) && IsWord(w) && e == "steps." + v + (".outputs." + w)
  {
    hide WordAfter, IsWord;
    if i :| 0 <= i < |e| && WordAfter(e[..i], "steps.") && WordAfter(e[i..], ".outputs.") {
      WordAfterIff(e[..i], "steps.");
      WordAfterIff(e[i..], ".outputs.");
      assert e == e[..i] + e[i..];
    }
    if v, w :| IsWord(v) && IsWord(w) && e == "steps." + v + (".outputs." + w) {
      var i := |"steps." + v|;
      assert e[..i] == "steps." + v && e[i..] == ".outputs." + w;
      WordAfterIff(e[..i], "steps.");
      WordAfterIff(e[i..], ".outputs.");
    }
  }

  /** The stripped expressions that match none of the allowed forms. */
  function Unknown(s: string, spans: seq<Span>): seq<string> {
    if spans == [] then []
    else
      var e := Strip(Body(s, spans[0]));
      (if StepExpression(e) then [] else [e]) + Unknown(s, spans[1..])
  }

  predicate OnlyAllowed(s: string) {
    forall k :: 0 <= k < |Scan(s, 0)| ==> StepExpression(Strip(Body(s, Scan(s, 0)[k])))
  }

  lemma {:induction false} UnknownIs(s: string, spans: seq<Span>)
    ensures Unknown(s, spans) == [] <==> forall k :: 0 <= k < |spans| ==> StepExpression(Strip(Body(s, spans[k])))
  {
    hide StepExpression, Strip;
    if spans != [] {
      UnknownIs(s, spans[1..]);
    }
  }

  // ----- Strings at every depth -----

  datatype Value = Text(s: string) | Dict(entries: seq<(string, Value)>) | List(items: seq<Value>) | Other

  function StringsIn(v: Value): seq<string>
    decreases v, 0
  {
    match v
    case Text(s) => [s]
    case Dict(entries) => StringsOfEntries(entries)
    case List(items) => StringsOfItems(items)
    case Other => []
  }

  function StringsOfItems(items: seq<Value>): seq<string>
    decreases items, 0
  {
    if items == [] then [] else StringsIn(items[0]) + StringsOfItems(items[1..])
  }

  function StringsOfEntry(entry: (string, Value)): seq<string>
    decreases entry, 0
  {
    StringsIn(entry.1)
  }

  function StringsOfEntries(entries: seq<(string, Value)>): seq<string>
    decreases entries, 0
  {
    if entries == [] then [] else StringsOfEntry(entries[0]) + StringsOfEntries(entries[1..])
  }

  function Part(v: Value, i: nat): Option<Value> {
    match v
    case Dict(entries) => if i < |entries| then Some(entries[i].1) else None
    case List(items) => if i < |items| then Some(items[i]) else None
    case _ => None
  }

  /** The value at an address: the turns taken from the outside in. */
  function At(v: Value, a: seq<nat>): Option<Value> {
    if a == [] then Some(v)
    else
      var part := Part(v, a[0]);
      if part.None? then None else At(part.value, a[1..])
  }

  ghost predicate IsLeaf(v: Value, s: string) {
    exists a :: At(v, a) == Some(Text(s))
  }

  lemma {:induction false} ItemStrings(items: seq<Value>, s: string)
    ensures s in StringsOfItems(items) <==> exists i :: 0 <= i < |items| && s in StringsIn(items[i])
  {
    if items != [] {
      ItemStrings(items[1..], s);
    }
  }

  lemma {:induction false} EntryStrings(entries: seq<(string, Value)>, s: string)
    ensures s in StringsOfEntries(entries) <==> exists i :: 0 <= i < |entries| && s in StringsIn(entries[i].1)
  {
    if entries != [] {
      EntryStrings(entries[1..], s);
      assert StringsOfEntry(entries[0]) == StringsIn(entries[0].1);
    }
  }

  /** A string is a leaf if and only if it is the value itself or a leaf of a part. */
  lemma LeafIsInPart(v: Value, s: string)
    ensures IsLeaf(v, s) <==> v == Text(s) || exists i: nat :: Part(v, i).Some? && IsLeaf(Part(v, i).value, s)
  {
    if IsLeaf(v, s) {
      var a :| At(v, a) == Some(Text(s));
      if a != [] {
        assert At(Part(v, a[0]).value, a[1..]) == Some(Text(s));
        assert IsLeaf(Part(v, a[0]).value, s);
      }
    }
    if v == Text(s) {
      assert At(v, []) == Some(Text(s));
    }
    if i: nat :| Part(v, i).Some? && IsLeaf(Part(v, i).value, s) {
      var a :| At(Part(v, i).value, a) == Some(Text(s));
      assert ([i] + a)[1..] == a;
      assert At(v, [i] + a) == Some(Text(s));
    }
  }

  /** The collected strings are the string leaves, at every nesting depth. */
  lemma {:induction false} StringsAreLeaves(v: Value, s: string)
    ensures s in StringsIn(v) <==> IsLeaf(v, s)
    decreases v
  {
    LeafIsInPart(v, s);
    match v
    case List(items) =>
      ItemStrings(items, s);
      forall i | 0 <= i < |items| ensures s in StringsIn(items[i]) <==> IsLeaf(Part(v, i).value, s) {
        StringsAreLeaves(items[i], s);
      }
    case Dict(entries) =>
      EntryStrings(entries, s);
      forall i | 0 <= i < |entries| ensures s in StringsIn(entries[i].1) <==> IsLeaf(Part(v, i).value, s) {
        StringsAreLeaves(entries[i].1, s);
      }
    case _ =>
  }

  // ----- The fields of a step -----

  type Fields = seq<(string, Value)>

  /**
   A step: the entries of its `with`, each key as the text it is interpolated as, and its other
   keys. Two keys of `with`, a number and a string, can have the same text.
   */
  datatype Step = Step(inputs: Fields, others: map<string, Value>)

  const PREFIX := "with."
  const OTHERS: seq<string> := ["working-directory", "shell", "name", "if"]

  /** Storing under a key, in place where the key is there already. */
  function Put(fs: Fields, key: string, v: Value): Fields {
    if fs == [] then [(key, v)]
    else if fs[0].0 == key then [(key, v)] + fs[1..]
    else [fs[0]] + Put(fs[1..], key, v)
  }

  function Lookup(fs: Fields, key: string): Option<Value> {
    if fs == [] then None else if fs[0].0 == key then Some(fs[0].1) else Lookup(fs[1..], key)
  }

  function InputFields(inputs: Fields): Fields {
    if inputs == [] then []
    else
      var n := |inputs| - 1;
      Put(InputFields(inputs[..n]), PREFIX + inputs[n].0, inputs[n].1)
  }

  function PutOthers(fs: Fields, others: map<string, Value>, keys: seq<string>): Fields {
    if keys == [] then fs
    else
      var n := |keys| - 1;
      var before := PutOthers(fs, others, keys[..n]);
      if keys[n] in others then Put(before, keys[n], others[keys[n]]) else before
  }

  function FieldsOf(step: Step): Fields {
    PutOthers(InputFields(step.inputs), step.others, OTHERS)
  }

  /** The last value given under a key text. */
  function LastOf(inputs: Fields, key: string): Option<Value> {
    if inputs == [] then None
    else
      var n := |inputs| - 1;
      if inputs[n].0 == key then Some(inputs[n].1) else LastOf(inputs[..n], key)
  }

  predicate Distinct(fs: Fields) {
    forall i, j :: 0 <= i < j < |fs| ==> fs[i].0 != fs[j].0
  }

  lemma {:induction false} LookupIs(fs: Fields, key: string)
    ensures Lookup(fs, key).Some? <==> exists i :: 0 <= i < |fs| && fs[i].0 == key
    ensures Distinct(fs) ==> forall i :: 0 <= i < |fs| && fs[i].0 == key ==> Lookup(fs, key) == Some(fs[i].1)
    ensures Lookup(fs, key).Some? ==> exists i :: 0 <= i < |fs| && fs[i] == (key, Lookup(fs, key).value)
  {
    if fs != [] {
      LookupIs(fs[1..], key);
      if Lookup(fs[1..], key).Some? {
        var i :| 0 <= i < |fs[1..]| && fs[1..][i] == (key, Lookup(fs[1..], key).value);
        assert fs[i + 1] == (key, Lookup(fs[1..], key).value);
      }
    }
  }

  lemma {:induction false} PutIs(fs: Fields, key: string, v: Value, k: string)
    ensures Lookup(Put(fs, key, v), k) == if k == key then Some(v) else Lookup(fs, k)
  {
    if fs != [] {
      PutIs(fs[1..], key, v, k);
    }
  }

  lemma {:induction false} PutDistinct(fs: Fields, key: string, v: Value)
    requires Distinct(fs)
    ensures Distinct(Put(fs, key, v))
  {
    if fs != [] && fs[0].0 != key {
      PutDistinct(fs[1..], key, v);
      var rest := Put(fs[1..], key, v);
      forall j | 0 <= j < |rest| ensures rest[j].0 != fs[0].0 {
        PutIs(fs[1..], key, v, fs[0].0);
        LookupIs(rest, fs[0].0);
        LookupIs(fs[1..], fs[0].0);
      }
    }
  }

  lemma {:induction false} InputFieldsAre(inputs: Fields, key: string)
    ensures Distinct(InputFields(inputs))
    ensures Lookup(InputFields(inputs), key) == if PREFIX <= key then LastOf(inputs, key[5..]) else None
  {
    if inputs != [] {
      var n := |inputs| - 1;
      InputFieldsAre(inputs[..n], key);
      PutDistinct(InputFields(inputs[..n]), PREFIX + inputs[n].0, inputs[n].1);
      PutIs(InputFields(inputs[..n]), PREFIX + inputs[n].0, inputs[n].1, key);
      assert PREFIX <= key ==> key == PREFIX + key[5..];
    }
  }

  lemma {:induction false} PutOthersAre(fs: Fields, others: map<string, Value>, keys: seq<string>, key: string)
    requires Distinct(fs)
    ensures Distinct(PutOthers(fs, others, keys))
    ensures Lookup(PutOthers(fs, others, keys), key) ==
            if key in keys && key in others then Some(others[key]) else Lookup(fs, key)
  {
    if keys != [] {
      var n := |keys| - 1;
      PutOthersAre(fs, others, keys[..n], key);
      var before := PutOthers(fs, others, keys[..n]);
      assert key in keys <==> key in keys[..n] || key == keys[n];
      if keys[n] in others {
        PutDistinct(before, keys[n], others[keys[n]]);
        PutIs(before, keys[n], others[keys[n]], key);
      }
    }
  }

  /** The field stored under each key: the last input of its text, or the step's own key. */
  lemma FieldsAre(step: Step, key: string)
    ensures Distinct(FieldsOf(step))
    ensures Lookup(FieldsOf(step), key) ==
            if key in OTHERS then (if key in step.others then Some(step.others[key]) else None)
            else if PREFIX <= key then LastOf(step.inputs, key[5..])
            else None
  {
    InputFieldsAre(step.inputs, key);
    PutOthersAre(InputFields(step.inputs), step.others, OTHERS, key);
    if PREFIX <= key {
      assert key[2] == 't' && key[0] == 'w';
      assert OTHERS[0][2] == 'r';
    }
  }

  // ----- The errors of a step -----

  function ErrorsOfStrings(key: string, strings: seq<string>): seq<(string, string)> {
    if strings == [] then []
    else
      var s := strings[|strings| - 1];
      ErrorsOfStrings(key, strings[..|strings| - 1]) + Labelled(key, Unknown(s, Scan(s, 0)))
  }

  function Labelled(key: string, expressions: seq<string>): seq<(string, string)> {
    seq(|expressions|, i requires 0 <= i < |expressions| => (key, expressions[i]))
  }

  function ErrorsOf(fs: Fields): seq<(string, string)> {
    if fs == [] then []
    else
      var f := fs[|fs| - 1];
      ErrorsOf(fs[..|fs| - 1]) + if f.0 == "if" then [] else ErrorsOfStrings(f.0, StringsIn(f.1))
  }

  /** The fields of a step, stored one by one. */
  method CollectFields(step: Step) returns (fs: Fields)
    ensures fs == FieldsOf(step)
  {
    fs := [];
    for i := 0 to |step.inputs|
      invariant fs == InputFields(step.inputs[..i])
    {
      fs := Put(fs, PREFIX + step.inputs[i].0, step.inputs[i].1);
      assert step.inputs[..i + 1][..i] == step.inputs[..i];
    }
    assert step.inputs[..|step.inputs|] == step.inputs;
    for i := 0 to |OTHERS|
      invariant fs == PutOthers(InputFields(step.inputs), step.others, OTHERS[..i])
    {
      if OTHERS[i] in step.others {
        fs := Put(fs, OTHERS[i], step.others[OTHERS[i]]);
      }
      assert OTHERS[..i + 1][..i] == OTHERS[..i];
    }
    assert OTHERS[..|OTHERS|] == OTHERS;
  }

  method FieldErrors(key: string, value: Value) returns (errors: seq<(string, string)>)
    ensures errors == ErrorsOfStrings(key, StringsIn(value))
  {
    var strings := StringsIn(value);
    errors := [];
    for i := 0 to |strings|
      invariant errors == ErrorsOfStrings(key, strings[..i])
    {
      errors := errors + Labelled(key, Unknown(strings[i], Scan(strings[i], 0)));
      assert strings[..i + 1][..i] == strings[..i];
    }
    assert strings[..|strings|] == strings;
  }

  /** Every unknown expression of every field, in order, with the field it is in. */
  method StepErrors(step: Step) returns (errors: seq<(string, string)>)
    ensures errors == ErrorsOf(FieldsOf(step))
  {
    hide FieldsOf, ErrorsOfStrings, StringsIn;
    var fs := CollectFields(step);
    errors := [];
    for i := 0 to |fs|
      invariant errors == ErrorsOf(fs[..i])
    {
      if fs[i].0 != "if" {
        var found := FieldErrors(fs[i].0, fs[i].1);
        errors := errors + found;
      }
      assert fs[..i + 1][..i] == fs[..i];
    }
    assert fs[..|fs|] == fs;
  }

  /** Every string at every depth of a value uses allowed expressions only. */
  ghost predicate Clean(v: Value) {
    forall s :: IsLeaf(v, s) ==> OnlyAllowed(s)
  }

  lemma {:induction false} CleanStrings(key: string, strings: seq<string>)
    ensures ErrorsOfStrings(key, strings) == [] <==> forall i :: 0 <= i < |strings| ==> OnlyAllowed(strings[i])
  {
    hide Scan, StepExpression, Strip;
    if strings != [] {
      var n := |strings| - 1;
      CleanStrings(key, strings[..n]);
      UnknownIs(strings[n], Scan(strings[n], 0));
      forall i | 0 <= i < n ensures strings[i] == strings[..n][i] { }
    }
  }

  lemma CleanField(key: string, v: Value)
    ensures ErrorsOfStrings(key, StringsIn(v)) == [] <==> Clean(v)
  {
    hide OnlyAllowed, ErrorsOfStrings, IsLeaf, StringsIn;
    CleanStrings(key, StringsIn(v));
    forall s ensures s in StringsIn(v) <==> IsLeaf(v, s) {
      StringsAreLeaves(v, s);
    }
    assert forall s :: s in StringsIn(v) <==> exists i :: 0 <= i < |StringsIn(v)| && StringsIn(v)[i] == s;
  }

  lemma {:induction false} CleanFields(fs: Fields)
    ensures ErrorsOf(fs) == [] <==> forall i :: 0 <= i < |fs| && fs[i].0 != "if" ==> Clean(fs[i].1)
  {
    hide Clean, ErrorsOfStrings, StringsIn;
    if fs != [] {
      var n := |fs| - 1;
      CleanFields(fs[..n]);
      CleanField(fs[n].0, fs[n].1);
      forall i | 0 <= i < n ensures fs[i] == fs[..n][i] { }
    }
  }

  lemma CleanLookups(fs: Fields)
    requires Distinct(fs)
    ensures ErrorsOf(fs) == [] <==> forall key :: key != "if" && Lookup(fs, key).Some? ==> Clean(Lookup(fs, key).value)
  {
    hide Clean, ErrorsOf, Lookup;
    CleanFields(fs);
    if ErrorsOf(fs) == [] {
      forall key | key != "if" && Lookup(fs, key).Some? ensures Clean(Lookup(fs, key).value) {
        LookupIs(fs, key);
      }
    } else {
      var i :| 0 <= i < |fs| && fs[i].0 != "if" && !Clean(fs[i].1);
      LookupIs(fs, fs[i].0);
    }
  }

  ghost predicate OwnClean(step: Step, key: string) {
    key in step.others ==> Clean(step.others[key])
  }

  ghost predicate InputsClean(inputs: Fields) {
    forall key :: LastOf(inputs, key).Some? ==> Clean(LastOf(inputs, key).value)
  }

  /**
   No unknown expression is reported if and only if every string at every depth of the step's
   own fields and of the last input of each key text uses allowed expressions only.
   */
  lemma NoErrorIffClean(step: Step)
    ensures ErrorsOf(FieldsOf(step)) == [] <==>
            InputsClean(step.inputs) && OwnClean(step, "working-directory") && OwnClean(step, "shell") &&
              OwnClean(step, "name")
  {
    hide Clean, ErrorsOf, FieldsOf, LastOf, Lookup, Distinct;
    var fs := FieldsOf(step);
    FieldsAre(step, "name");
    FieldsAre(step, "shell");
    FieldsAre(step, "working-directory");
    CleanLookups(fs);
    if ErrorsOf(fs) == [] {
      forall key | LastOf(step.inputs, key).Some? ensures Clean(LastOf(step.inputs, key).value) {
        FieldsAre(step, PREFIX + key);
        PrefixIsOwn(key);
      }
    } else {
      var key :| key != "if" && Lookup(fs, key).Some? && !Clean(Lookup(fs, key).value);
      FieldsAre(step, key);
    }
  }

  lemma PrefixIsOwn(key: string)
    ensures PREFIX <= PREFIX + key && (PREFIX + key)[5..] == key && PREFIX + key !in OTHERS && PREFIX + key != "if"
  {
    assert (PREFIX + key)[0] == 'w' && (PREFIX + key)[2] == 't';
    assert OTHERS[0][2] == 'r';
  }

  // ----- When every input is covered -----

  /** Every value of `with`, at every depth. */
  ghost predicate AllClean(inputs: Fields) {
    forall i :: 0 <= i < |inputs| ==> Clean(inputs[i].1)
  }

  /** No input after the i-th has this key text. */
  predicate IsLastAt(inputs: Fields, key: string, i: int) {
    forall j :: 0 <= i < j < |inputs| ==> inputs[j].0 != key
  }

  lemma {:induction false} LastIs(inputs: Fields, i: nat)
    requires i < |inputs| && IsLastAt(inputs, inputs[i].0, i)
    ensures LastOf(inputs, inputs[i].0) == Some(inputs[i].1)
  {
    var n := |inputs| - 1;
    if i < n {
      LastIs(inputs[..n], i);
    }
  }

  lemma {:induction false} LastIsSome(inputs: Fields, key: string)
    requires LastOf(inputs, key).Some?
    ensures exists i :: 0 <= i < |inputs| && inputs[i] == (key, LastOf(inputs, key).value) && IsLastAt(inputs, key, i)
  {
    var n := |inputs| - 1;
    if inputs[n].0 != key {
      LastIsSome(inputs[..n], key);
      var i :| 0 <= i < n && inputs[..n][i] == (key, LastOf(inputs, key).value) && IsLastAt(inputs[..n], key, i);
      assert inputs[i] == (key, LastOf(inputs, key).value);
      forall j | i < j < |inputs| ensures inputs[j].0 != key {
        assert j < n ==> inputs[j] == inputs[..n][j];
      }
    }
  }

  function WithKeys(keys: seq<string>, values: seq<Value>): Fields
    requires |keys| == |values|
  {
    seq(|keys|, i requires 0 <= i < |keys| => (keys[i], values[i]))
  }

  predicate DistinctKeys(keys: seq<string>) {
    forall i, j :: 0 <= i < j < |keys| ==> keys[i] != keys[j]
  }

  const OUTSIDE := Text("${{a}}")

  lemma OutsideIsNotClean()
    ensures !Clean(OUTSIDE)
  {
    var s := "${{a}}";
    assert s[3..5][0] == 'a';
    assert OccursAt(s, OPEN, 0) && !OccursAt(s, CLOSE, 3) && OccursAt(s, CLOSE, 4);
    assert FindFrom(s, OPEN, 0) == Some(0);
    assert FindFrom(s, CLOSE, 3) == Some(4);
    assert Scan(s, 0)[0] == Span(3, 4);
    assert Body(s, Span(3, 4)) == "a" && Strip("a") == "a";
    assert |"a"| == 1 && !StepExpression("a");
    assert At(OUTSIDE, []) == Some(Text(s));
    assert IsLeaf(OUTSIDE, s) && !OnlyAllowed(s);
  }

  lemma OtherIsClean()
    ensures Clean(Other)
  {
    forall s ensures !IsLeaf(Other, s) {
      LeafIsInPart(Other, s);
    }
  }

  predicate Unreported(step: Step) {
    ErrorsOf(FieldsOf(step)) == []
  }

  /**
   With these key texts, whatever the values and the step's own keys, a step without a reported
   expression uses allowed expressions in every value of `with`, if and only if no text comes
   twice.
   */
  lemma CoverageIffDistinctKeys(keys: seq<string>)
    ensures DistinctKeys(keys) <==>
            forall values: seq<Value>, others ::
              |values| == |keys| && Unreported(Step(WithKeys(keys, values), others)) ==>
                AllClean(WithKeys(keys, values))
  {
    hide ErrorsOf, FieldsOf, InputsClean, AllClean, OwnClean;
    if DistinctKeys(keys) {
      forall values: seq<Value>, others | |values| == |keys| && Unreported(Step(WithKeys(keys, values), others))
        ensures AllClean(WithKeys(keys, values))
      {
        NoErrorIffClean(Step(WithKeys(keys, values), others));
        DistinctIsCovered(WithKeys(keys, values));
      }
    } else {
      var i, j :| 0 <= i < j < |keys| && keys[i] == keys[j];
      var values := TwiceIsNotCovered(keys, i, j);
      var step := Step(WithKeys(keys, values), map[]);
      NoErrorIffClean(step);
      assert OwnClean(step, "working-directory") && OwnClean(step, "shell") &&
        OwnClean(step, "name") by { NothingOwn(step); }
      assert Unreported(step);
    }
  }

  lemma NothingOwn(step: Step)
    requires step.others == map[]
    ensures OwnClean(step, "working-directory") && OwnClean(step, "shell") && OwnClean(step, "name")
  {
  }

  lemma DistinctIsCovered(inputs: Fields)
    requires Distinct(inputs) && InputsClean(inputs)
    ensures AllClean(inputs)
  {
    hide Clean;
    forall i | 0 <= i < |inputs| ensures Clean(inputs[i].1) {
      LastIs(inputs, i);
    }
  }

  lemma TwiceIsNotCovered(keys: seq<string>, i: nat, j: nat) returns (values: seq<Value>)
    requires i < j < |keys| && keys[i] == keys[j]
    ensures |values| == |keys| && InputsClean(WithKeys(keys, values)) && !AllClean(WithKeys(keys, values))
  {
    hide Clean;
    values := seq(|keys|, k => if k == i then OUTSIDE else Other);
    var inputs := WithKeys(keys, values);
    OutsideIsNotClean();
    OtherIsClean();
    assert inputs[i].1 == OUTSIDE;
    forall key | LastOf(inputs, key).Some? ensures Clean(LastOf(inputs, key).value) {
      LastIsSome(inputs, key);
      var k :| 0 <= k < |inputs| && inputs[k] == (key, LastOf(inputs, key).value) && IsLastAt(inputs, key, k);
      assert inputs[j].0 == keys[i];
      assert k != i;
    }
  }

  // ----- The order of the steps -----

  const FETCH := "cargo fetch --locked"
  const SUITE := "cargo nextest run"
  const INSTALL := "pnpm -C conformance install --frozen-lockfile"
  const SHARD := "--shard "

  predicate IsFirst(runs: seq<string>, part: string, i: Option<nat>) {
    match i
    case None => forall k :: 0 <= k < |runs| ==> !Contains(runs[k], part)
    case Some(n) => n < |runs| && Contains(runs[n], part) && forall k :: 0 <= k < n ==> !Contains(runs[k], part)
  }

  /** The first script that has the part in it. */
  method FirstIndex(runs: seq<string>, part: string) returns (r: Option<nat>)
    ensures IsFirst(runs, part, r)
  {
    for i := 0 to |runs|
      invariant forall k :: 0 <= k < i ==> !Contains(runs[k], part)
    {
      if Contains(runs[i], part) {
        return Some(i);
      }
    }
    r := None;
  }

  /** A script has `later` in it, and before every such script comes one with `earlier`. */
  predicate Precedes(runs: seq<string>, earlier: string, later: string) {
    && (exists k :: 0 <= k < |runs| && Contains(runs[k], later))
    && (forall k :: 0 <= k < |runs| && Contains(runs[k], later) ==>
          exists i :: 0 <= i < k && Contains(runs[i], earlier))
  }

  /** The comparison of the first indices decides the order of all the scripts. */
  lemma FirstsDecide(runs: seq<string>, earlier: string, later: string, e: Option<nat>, l: Option<nat>)
    requires IsFirst(runs, earlier, e) && IsFirst(runs, later, l)
    ensures e.Some? && l.Some? && e.value < l.value <==> Precedes(runs, earlier, later)
  {
    hide Contains;
    if l.Some? && Precedes(runs, earlier, later) {
      assert Contains(runs[l.value], later);
      var i :| 0 <= i < l.value && Contains(runs[i], earlier);
    }
  }

  /** The errors of the nextest and the mutants job: one for each order that does not hold. */
  method OrderErrors(nextest: seq<string>, mutants: seq<string>) returns (errors: seq<string>)
    ensures errors == (if Precedes(nextest, "cargo fetch --locked", "cargo nextest run") then [] else ["fetch"])
                      + (if Precedes(nextest, "pnpm -C conformance install --frozen-lockfile", "cargo nextest run")
                         then [] else ["install"])
                      + (if Precedes(mutants, "pnpm -C conformance install --frozen-lockfile", "--shard ")
                         then [] else ["install for mutants"])
  {
    var fetched := FirstIndex(nextest, FETCH);
    var suite := FirstIndex(nextest, SUITE);
    FirstsDecide(nextest, FETCH, SUITE, fetched, suite);
    errors := if fetched.Some? && suite.Some? && fetched.value < suite.value then [] else ["fetch"];
    var installed := FirstIndex(nextest, INSTALL);
    FirstsDecide(nextest, INSTALL, SUITE, installed, suite);
    if !(installed.Some? && suite.Some? && installed.value < suite.value) {
      errors := errors + ["install"];
    }
    var installedForMutants := FirstIndex(mutants, INSTALL);
    var mutating := FirstIndex(mutants, SHARD);
    FirstsDecide(mutants, INSTALL, SHARD, installedForMutants, mutating);
    if !(installedForMutants.Some? && mutating.Some? && installedForMutants.value < mutating.value) {
      errors := errors + ["install for mutants"];
    }
  }
}
