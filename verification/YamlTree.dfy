/**
 The tree check of the workflow contract (scripts/actions-security-contract.rb): a recursive walk
 over a YAML syntax tree that appends what it finds to one list of errors.
 */
module YamlTree {
  import opened Common

  /** A mapping's children are keys and values in turn; a quoted scalar is always a string. */
  datatype Node =
    | Scalar(text: string, quoted: bool)
    | Alias
    | Sequence(items: seq<Node>)
    | Mapping(pairs: seq<(Node, Node)>)

  datatype Step = Name(name: string) | Index(index: nat)

  type Path = seq<Step>

  datatype Error =
    | KeyIsNoScalar
    | DuplicateKey(path: Path)
    | MergeKey
    | CacheModeMisplaced
    | CacheModeNotLiteral
    | AliasForbidden

  const MODES: set<string> := {"read", "write", "write-only", "none"}

  predicate CacheModeAllowed(path: Path) {
    path == [] || (|path| == 2 && path[0] == Name("jobs"))
  }

  predicate LiteralMode(value: Node) {
    value.Scalar? && value.text in MODES
  }

  // ----- The walk as a function of node and path -----

  /** What an entry with a scalar key is charged with, its value's own errors aside. */
  function EntryErrors(name: string, value: Node, path: Path, seen: seq<string>): seq<Error> {
    (if name in seen then [DuplicateKey(path + [Name(name)])] else []) +
    (if name == "<<" then [MergeKey] else []) +
    (if name == "cache-mode" && !CacheModeAllowed(path) then [CacheModeMisplaced] else []) +
    (if name == "cache-mode" && !LiteralMode(value) then [CacheModeNotLiteral] else [])
  }

  /** The scalar keys among the first `n` entries, in order. */
  function Seen(pairs: seq<(Node, Node)>, n: nat): seq<string>
    requires n <= |pairs|
  {
    if n == 0 then []
    else Seen(pairs, n - 1) + (if pairs[n - 1].0.Scalar? then [pairs[n - 1].0.text] else [])
  }

  function PairErrors(pairs: seq<(Node, Node)>, n: nat, path: Path): seq<Error>
    requires n <= |pairs|
    decreases pairs, n
  {
    if n == 0 then []
    else
      PairErrors(pairs, n - 1, path) + OneError(pairs[n - 1], Seen(pairs, n - 1), path)
  }

  function OneError(pair: (Node, Node), seen: seq<string>, path: Path): seq<Error>
    decreases pair, 0
  {
    if !pair.0.Scalar? then [KeyIsNoScalar]
    else EntryErrors(pair.0.text, pair.1, path, seen) + Errors(pair.1, path + [Name(pair.0.text)])
  }

  function ItemErrors(items: seq<Node>, n: nat, path: Path): seq<Error>
    requires n <= |items|
    decreases items, n
  {
    if n == 0 then [] else ItemErrors(items, n - 1, path) + Errors(items[n - 1], path + [Index(n - 1)])
  }

  function Errors(node: Node, path: Path): seq<Error>
    decreases node, 0
  {
    match node
    case Mapping(pairs) => PairErrors(pairs, |pairs|, path)
    case Alias => [AliasForbidden]
    case Sequence(items) => ItemErrors(items, |items|, path)
    case Scalar(_, _) => []
  }

  // ----- The walk as the code runs it -----

  class Inspector {
    var errors: seq<Error>

    constructor ()
      ensures errors == []
    {
      errors := [];
    }

    /** Appends the errors of the node, after whatever was found before. */
    method Inspect(node: Node, path: Path)
      modifies this
      ensures errors == old(errors) + Errors(node, path)
      decreases node, 0
    {
      match node
      case Mapping(pairs) =>
        var seen: seq<string> := [];
        var i := 0;
        while i < |pairs|
          invariant 0 <= i <= |pairs|
          invariant seen == Seen(pairs, i)
          invariant errors == old(errors) + PairErrors(pairs, i, path)
        {
          InspectPair(pairs[i], seen, path);
          if pairs[i].0.Scalar? { seen := seen + [pairs[i].0.text]; }
          i := i + 1;
        }
      case Alias =>
        errors := errors + [AliasForbidden];
      case Sequence(items) =>
        var i := 0;
        while i < |items|
          invariant 0 <= i <= |items|
          invariant errors == old(errors) + ItemErrors(items, i, path)
        {
          Inspect(items[i], path + [Index(i)]);
          i := i + 1;
        }
      case Scalar(_, _) =>
    }

    /** One entry of a mapping, given the scalar keys before it. */
    method InspectPair(pair: (Node, Node), seen: seq<string>, path: Path)
      modifies this
      ensures errors == old(errors) + OneError(pair, seen, path)
      decreases pair, 0
    {
      if !pair.0.Scalar? {
        errors := errors + [KeyIsNoScalar];
        return;
      }
      var name := pair.0.text;
      if name in seen { errors := errors + [DuplicateKey(path + [Name(name)])]; }
      if name == "<<" { errors := errors + [MergeKey]; }
      if name == "cache-mode" {
        if !CacheModeAllowed(path) { errors := errors + [CacheModeMisplaced]; }
        if !LiteralMode(pair.1) { errors := errors + [CacheModeNotLiteral]; }
      }
      assert errors == old(errors) + EntryErrors(name, pair.1, path, seen);
      Inspect(pair.1, path + [Name(name)]);
    }
  }

  // ----- Every place in a tree -----

  datatype Turn = Key(i: nat) | Value(i: nat) | Item(i: nat)

  /** Where a node is: the turns taken from the root. */
  type Address = seq<Turn>

  function Child(node: Node, t: Turn): Option<Node> {
    match t
    case Key(i) => if node.Mapping? && i < |node.pairs| then Some(node.pairs[i].0) else None
    case Value(i) => if node.Mapping? && i < |node.pairs| then Some(node.pairs[i].1) else None
    case Item(i) => if node.Sequence? && i < |node.items| then Some(node.items[i]) else None
  }

  function At(node: Node, a: Address): Option<Node> {
    if a == [] then Some(node)
    else
      var child := Child(node, a[0]);
      if child.None? then None else At(child.value, a[1..])
  }

  /** The path under which the walk reaches the address. */
  function PathTo(node: Node, a: Address): Path {
    if a == [] then []
    else
      var child := Child(node, a[0]);
      if child.None? then []
      else
        [StepOf(node, a[0])] + PathTo(child.value, a[1..])
  }

  function StepOf(node: Node, t: Turn): Step
    requires Child(node, t).Some?
  {
    if t.Value? && node.pairs[t.i].0.Scalar? then Name(node.pairs[t.i].0.text) else Index(t.i)
  }

  predicate ScalarKeys(node: Node) {
    node.Mapping? ==> forall i :: 0 <= i < |node.pairs| ==> node.pairs[i].0.Scalar?
  }

  /** The rules at one node that is reached under `path`. */
  predicate Sound(node: Node, path: Path) {
    && !node.Alias?
    && ScalarKeys(node)
    && (node.Mapping? ==>
          && (forall i, j :: 0 <= i < j < |node.pairs| ==> node.pairs[i].0.text != node.pairs[j].0.text)
          && (forall i :: 0 <= i < |node.pairs| ==> node.pairs[i].0.text != "<<")
          && (forall i :: 0 <= i < |node.pairs| && node.pairs[i].0.text == "cache-mode" ==>
                && (path == [] || (|path| == 2 && path[0] == Name("jobs")))
                && node.pairs[i].1.Scalar? && node.pairs[i].1.text in {"read", "write", "write-only", "none"}))
  }

  /** The rules hold everywhere: at the root reached under `path` and at every node below. */
  ghost predicate SoundTree(node: Node, path: Path) {
    forall a :: At(node, a).Some? ==> Sound(At(node, a).value, path + PathTo(node, a))
  }

  // ----- The walk finds nothing exactly where the rules hold everywhere -----

  lemma {:induction false} SeenIs(pairs: seq<(Node, Node)>, n: nat, name: string)
    requires n <= |pairs|
    ensures name in Seen(pairs, n) <==> exists j :: 0 <= j < n && pairs[j].0.Scalar? && pairs[j].0.text == name
  {
    if n > 0 { SeenIs(pairs, n - 1, name); }
  }

  lemma {:induction false} PairsClean(pairs: seq<(Node, Node)>, n: nat, path: Path)
    requires n <= |pairs|
    ensures PairErrors(pairs, n, path) == [] <==>
              forall i :: 0 <= i < n ==> OneError(pairs[i], Seen(pairs, i), path) == []
  {
    hide OneError, Seen;
    if n > 0 { PairsClean(pairs, n - 1, path); }
  }

  lemma {:induction false} ItemsClean(items: seq<Node>, n: nat, path: Path)
    requires n <= |items|
    ensures ItemErrors(items, n, path) == [] <==> forall i :: 0 <= i < n ==> Errors(items[i], path + [Index(i)]) == []
  {
    if n > 0 { ItemsClean(items, n - 1, path); }
  }

  lemma EntryClean(name: string, value: Node, path: Path, seen: seq<string>)
    ensures EntryErrors(name, value, path, seen) == [] <==>
              && name !in seen && name != "<<"
              && (name == "cache-mode" ==> CacheModeAllowed(path) && LiteralMode(value))
  {
  }

  /** The rules for the entry `i` alone, given the entries before it. */
  predicate GoodEntry(node: Node, i: nat, path: Path)
    requires node.Mapping? && i < |node.pairs|
  {
    var key := node.pairs[i].0;
    && key.Scalar?
    && (forall j :: 0 <= j < i && node.pairs[j].0.Scalar? ==> node.pairs[j].0.text != key.text)
    && key.text != "<<"
    && (key.text == "cache-mode" ==> CacheModeAllowed(path) && LiteralMode(node.pairs[i].1))
  }

  lemma OneClean(node: Node, i: nat, path: Path)
    requires node.Mapping? && i < |node.pairs|
    ensures OneError(node.pairs[i], Seen(node.pairs, i), path) == [] <==>
              GoodEntry(node, i, path) && Errors(node.pairs[i].1, path + [StepOf(node, Value(i))]) == []
  {
    hide EntryErrors, Seen, Errors, CacheModeAllowed, LiteralMode;
    var pair := node.pairs[i];
    if pair.0.Scalar? {
      SeenIs(node.pairs, i, pair.0.text);
      EntryClean(pair.0.text, pair.1, path, Seen(node.pairs, i));
    }
  }

  lemma SoundIsGood(node: Node, path: Path)
    requires node.Mapping?
    ensures Sound(node, path) <==> forall i :: 0 <= i < |node.pairs| ==> GoodEntry(node, i, path)
  {
    if forall i :: 0 <= i < |node.pairs| ==> GoodEntry(node, i, path) {
      forall i | 0 <= i < |node.pairs| ensures node.pairs[i].0.Scalar? { assert GoodEntry(node, i, path); }
      forall i, j | 0 <= i < j < |node.pairs| ensures node.pairs[i].0.text != node.pairs[j].0.text {
        assert GoodEntry(node, j, path);
      }
      forall i | 0 <= i < |node.pairs|
        ensures node.pairs[i].0.text != "<<"
        ensures node.pairs[i].0.text == "cache-mode" ==> CacheModeAllowed(path) && LiteralMode(node.pairs[i].1)
      {
        assert GoodEntry(node, i, path);
      }
    }
    if Sound(node, path) {
      forall i | 0 <= i < |node.pairs| ensures GoodEntry(node, i, path) { }
    }
  }

  /** One mapping: nothing is found if and only if it is sound and nothing is found in its values. */
  lemma MappingClean(node: Node, path: Path)
    requires node.Mapping?
    ensures Errors(node, path) == [] <==>
              && Sound(node, path)
              && forall i :: 0 <= i < |node.pairs| ==> Errors(node.pairs[i].1, path + [StepOf(node, Value(i))]) == []
  {
    var pairs := node.pairs;
    PairsClean(pairs, |pairs|, path);
    SoundIsGood(node, path);
    assert Errors(node, path) == PairErrors(pairs, |pairs|, path);
    hide Errors, PairErrors, OneError, Seen, GoodEntry, Sound;
    forall i | 0 <= i < |pairs|
      ensures OneError(pairs[i], Seen(pairs, i), path) == [] <==>
                GoodEntry(node, i, path) && Errors(pairs[i].1, path + [StepOf(node, Value(i))]) == []
    {
      OneClean(node, i, path);
    }
  }

  lemma SoundBelow(node: Node, path: Path, t: Turn)
    requires SoundTree(node, path) && Child(node, t).Some?
    ensures SoundTree(Child(node, t).value, path + [StepOf(node, t)])
  {
    var child := Child(node, t).value;
    forall a | At(child, a).Some? ensures Sound(At(child, a).value, path + [StepOf(node, t)] + PathTo(child, a)) {
      var whole := [t] + a;
      assert whole[0] == t && whole[1..] == a;
      assert At(node, whole) == At(child, a);
      assert path + PathTo(node, whole) == path + [StepOf(node, t)] + PathTo(child, a);
    }
  }

  lemma SoundAbove(node: Node, path: Path)
    requires Sound(node, path)
    requires forall t :: Child(node, t).Some? ==> SoundTree(Child(node, t).value, path + [StepOf(node, t)])
    ensures SoundTree(node, path)
  {
    forall a | At(node, a).Some? ensures Sound(At(node, a).value, path + PathTo(node, a)) {
      if a == [] {
        assert path + [] == path;
      } else {
        var child := Child(node, a[0]).value;
        assert SoundTree(child, path + [StepOf(node, a[0])]);
        assert At(child, a[1..]) == At(node, a);
        assert path + PathTo(node, a) == path + [StepOf(node, a[0])] + PathTo(child, a[1..]);
      }
    }
  }

  lemma SoundHere(node: Node, path: Path)
    requires SoundTree(node, path)
    ensures Sound(node, path)
  {
    assert At(node, []) == Some(node) && path + PathTo(node, []) == path;
  }

  lemma ScalarSound(node: Node, path: Path)
    requires node.Scalar?
    ensures SoundTree(node, path)
  {
    SoundAbove(node, path);
  }

  /**
   The walk is sound and complete: it appends no error if and only if there is no alias
   anywhere, every mapping has scalar, pairwise distinct and no merge keys, and every
   `cache-mode` key stands at an allowed path with a literal mode.
   */
  lemma {:induction false} NoErrorIffSound(node: Node, path: Path)
    ensures Errors(node, path) == [] <==> SoundTree(node, path)
    decreases node
  {
    match node
    case Scalar(_, _) => ScalarSound(node, path);
    case Alias => if SoundTree(node, path) { SoundHere(node, path); }
    case Sequence(items) => SequenceIff(node, path);
    case Mapping(pairs) => MappingIff(node, path);
  }

  lemma {:induction false} SequenceIff(node: Node, path: Path)
    requires node.Sequence?
    ensures Errors(node, path) == [] <==> SoundTree(node, path)
    decreases node, 0
  {
    var items := node.items;
    ItemsClean(items, |items|, path);
    forall i | 0 <= i < |items|
      ensures Errors(items[i], path + [Index(i)]) == [] <==> SoundTree(items[i], path + [Index(i)])
    {
      NoErrorIffSound(items[i], path + [Index(i)]);
    }
    if Errors(node, path) == [] {
      SoundAbove(node, path);
    } else if SoundTree(node, path) {
      forall i | 0 <= i < |items| ensures Errors(items[i], path + [Index(i)]) == [] {
        SoundBelow(node, path, Item(i));
      }
    }
  }

  lemma {:induction false} MappingIff(node: Node, path: Path)
    requires node.Mapping?
    ensures Errors(node, path) == [] <==> SoundTree(node, path)
    decreases node, 0
  {
    var pairs := node.pairs;
    MappingClean(node, path);
    forall i | 0 <= i < |pairs|
      ensures Errors(pairs[i].1, path + [StepOf(node, Value(i))]) == [] <==>
              SoundTree(pairs[i].1, path + [StepOf(node, Value(i))])
    {
      NoErrorIffSound(pairs[i].1, path + [StepOf(node, Value(i))]);
    }
    if Errors(node, path) == [] {
      forall t | Child(node, t).Some? ensures SoundTree(Child(node, t).value, path + [StepOf(node, t)]) {
        if t.Key? { ScalarSound(pairs[t.i].0, path + [StepOf(node, t)]); }
      }
      SoundAbove(node, path);
    } else if SoundTree(node, path) {
      SoundHere(node, path);
      forall i | 0 <= i < |pairs| ensures Errors(pairs[i].1, path + [StepOf(node, Value(i))]) == [] {
        SoundBelow(node, path, Value(i));
      }
    }
  }
}
