/**
 The memoized reads of past commits (tools/auth-session-v2-frozen.py). Commits do not change, so
 a bounded cache that keeps only what a read returned answers as the read would.
 */
module GitMemo {
  import opened Common
  import opened Texts
  import opened Json

  /** The commits of the repository, each with its files. */
  type Git = map<string, map<string, Bytes>>

  const PUBLISHER := "tools/publish-auth-session-v2.py"
  const REVIEW := "spec/compatibility/evidence/auth-session-v2/source-review.json"
  const APPROVAL := "tools/auth-session-v2-approval.py"
  const ANCHOR := "00ec446c34fba61090550de144f2281ac62a6d13"

  // ----- The reads themselves -----

  function Files(git: Git, commit: string): Option<map<string, Bytes>> {
    if HexText(commit, 40) && commit in git then Some(git[commit]) else None
  }

  function Show(git: Git, commit: string, name: string): Option<Bytes> {
    var files := Files(git, commit);
    if files.Some? && name in files.value then Some(files.value[name]) else None
  }

  function ShaAt(git: Git, f: Foreign, commit: string, name: string): Option<string> {
    var bytes := Show(git, commit, name);
    if bytes.None? then None else Some(f.sha256(bytes.value))
  }

  function ReviewDigestAt(git: Git, f: Foreign, commit: string): Option<string> {
    var bytes := Show(git, commit, REVIEW);
    if bytes.None? then None
    else
      var review := f.loads(bytes.value);
      if review.None? || !review.value.Obj? then None else Some(f.digest(review.value))
  }

  /** A Python file directly in the directory, other than a test. */
  predicate ProbeFileIn(name: string, directory: string) {
    && StartsWith(name, directory)
    && var base := name[|directory|..];
    && '/' !in base && EndsWith(base, ".py") && |base| > 3 && !StartsWith(base, "test_")
  }

  predicate ProbeFile(name: string) {
    ProbeFileIn(name, "tools/auth-session-v2/") || ProbeFileIn(name, "tools/compat-inventory/")
  }

  predicate RuntimeFile(name: string) {
    || name in {"Cargo.toml", "Cargo.lock", "rust-toolchain.toml", ".cargo", "crates"}
    || StartsWith(name, ".cargo/") || StartsWith(name, "crates/")
  }

  /** The recorder's own files: one Python module, no test, directly in one of its two directories. */
  lemma ProbeFileIff(name: string)
    ensures ProbeFile(name) <==>
              exists directory, stem ::
                && directory in {"tools/auth-session-v2/", "tools/compat-inventory/"}
                && name == directory + (stem + ".py") && stem != "" && '/' !in stem && !("test_" <= stem)
  {
    ProbeFileInIff(name, "tools/auth-session-v2/");
    ProbeFileInIff(name, "tools/compat-inventory/");
  }

  lemma ProbeFileInIff(name: string, directory: string)
    ensures ProbeFileIn(name, directory) <==>
              exists stem :: name == directory + (stem + ".py") && stem != "" && '/' !in stem && !("test_" <= stem)
  {
    if ProbeFileIn(name, directory) {
      var base := name[|directory|..];
      var stem := base[..|base| - 3];
      assert base == stem + ".py" && name == directory + base;
      StemBase(stem);
    }
    if stem :| name == directory + (stem + ".py") && stem != "" && '/' !in stem && !("test_" <= stem) {
      var base := stem + ".py";
      assert name[|directory|..] == base && name[..|directory|] == directory && base[|base| - 3..] == ".py";
      StemBase(stem);
    }
  }

  lemma StemBase(stem: string)
    ensures '/' in stem + ".py" <==> '/' in stem
    ensures StartsWith(stem + ".py", "test_") <==> "test_" <= stem
  {
    var base, test := stem + ".py", "test_";
    assert forall c :: c in base <==> c in stem || c in ".py";
    assert forall i :: 0 <= i < |stem| ==> base[i] == stem[i];
    assert base[|stem|] == '.' && forall i :: 0 <= i < 5 ==> test[i] != '.';
    assert StartsWith(base, test) <==> 5 <= |base| && forall i :: 0 <= i < 5 ==> base[i] == test[i];
    assert test <= stem <==> 5 <= |stem| && forall i :: 0 <= i < 5 ==> stem[i] == test[i];
  }

  /** The sources of the runtime: three files at the top and all under two directories. */
  lemma RuntimeFileIff(name: string)
    ensures RuntimeFile(name) <==>
              || name in {"Cargo.toml", "Cargo.lock", "rust-toolchain.toml"}
              || exists directory, rest :: directory in {".cargo", "crates"} && (rest == "" || rest[0] == '/') &&
                   name == directory + rest
  {
    if StartsWith(name, ".cargo/") { assert name == ".cargo" + name[6..] && name[6] == name[..7][6]; }
    if StartsWith(name, "crates/") { assert name == "crates" + name[6..] && name[6] == name[..7][6]; }
    assert name == ".cargo" ==> name == ".cargo" + "";
    assert name == "crates" ==> name == "crates" + "";
    if directory, rest :| && directory in {".cargo", "crates"} && (rest == "" || rest[0] == '/')
                          && name == directory + rest
    {
      if rest != "" { assert name[..7] == directory + "/"; } else { assert name == directory; }
      assert ".cargo" + "/" == ".cargo/" && "crates" + "/" == "crates/";
    }
  }

  /** The digests of the named files; there must be one. */
  function Table(f: Foreign, files: map<string, Bytes>, names: set<string>): Option<Json> {
    if files.Keys * names == {} then None else Some(Obj(map n | n in files && n in names :: Str(f.sha256(files[n]))))
  }

  function ProbeInputsAt(git: Git, f: Foreign, commit: string): (r: Option<Json>)
    ensures r.Some? ==> r.value.Obj? && forall k :: k in r.value.o ==> r.value.o[k].Str?
  {
    var files := Files(git, commit);
    if files.None? then None else Table(f, files.value, set n | n in files.value && ProbeFile(n))
  }

  function RuntimeInputsAt(git: Git, f: Foreign, commit: string): Option<Json> {
    var files := Files(git, commit);
    if files.None? then None else Table(f, files.value, set n | n in files.value && RuntimeFile(n))
  }

  // ----- A bounded cache, most recently used first -----

  type Cache<K, V> = seq<(K, V)>

  function Find<K(==), V>(c: Cache<K, V>, k: K): Option<V> {
    if c == [] then None else if c[0].0 == k then Some(c[0].1) else Find(c[1..], k)
  }

  function Without<K(==), V>(c: Cache<K, V>, k: K): Cache<K, V> {
    if c == [] then [] else (if c[0].0 == k then [] else [c[0]]) + Without(c[1..], k)
  }

  /** The entry becomes the most recent; what no longer fits is dropped from the other end. */
  function Remember<K(==), V>(c: Cache<K, V>, k: K, v: V, max: nat): Cache<K, V> {
    var all := [(k, v)] + Without(c, k);
    if |all| > max then all[..max] else all
  }

  /** Every entry is what the read returns, and a failure is never an entry. */
  ghost predicate Agrees<K(!new), V(!new)>(c: Cache<K, V>, direct: K -> Option<V>) {
    forall i :: 0 <= i < |c| ==> direct(c[i].0) == Some(c[i].1)
  }

  lemma {:induction false} FoundIsDirect<K(!new), V(!new)>(c: Cache<K, V>, k: K, direct: K -> Option<V>)
    requires Agrees(c, direct) && Find(c, k).Some?
    ensures direct(k) == Find(c, k)
  {
    if c[0].0 != k { FoundIsDirect(c[1..], k, direct); }
  }

  lemma {:induction false} WithoutAgrees<K(!new), V(!new)>(c: Cache<K, V>, k: K, direct: K -> Option<V>)
    requires Agrees(c, direct)
    ensures Agrees(Without(c, k), direct)
  {
    if c != [] { WithoutAgrees(c[1..], k, direct); }
  }

  lemma RememberAgrees<K(!new), V(!new)>(c: Cache<K, V>, k: K, v: V, max: nat, direct: K -> Option<V>)
    requires Agrees(c, direct) && direct(k) == Some(v)
    ensures Agrees(Remember(c, k, v, max), direct) && |Remember(c, k, v, max)| <= max
  {
    WithoutAgrees(c, k, direct);
  }

  // ----- The memoized reads -----

  class Memo {
    const git: Git
    const f: Foreign
    var bytes: Cache<(string, string), Bytes>
    var contracts: Cache<string, string>
    var reviews: Cache<string, string>
    var approvals: Cache<string, string>
    var probes: Cache<string, Json>
    var runtimes: Cache<string, Json>

    ghost predicate Valid()
      reads this
    {
      && Agrees(bytes, (k: (string, string)) => Show(git, k.0, k.1)) && |bytes| <= 8
      && Agrees(contracts, commit => ShaAt(git, f, commit, PUBLISHER)) && |contracts| <= 4
      && Agrees(reviews, commit => ReviewDigestAt(git, f, commit)) && |reviews| <= 4
      && Agrees(approvals, commit => ShaAt(git, f, commit, APPROVAL)) && |approvals| <= 1
      && Agrees(probes, commit => ProbeInputsAt(git, f, commit)) && |probes| <= 4
      && Agrees(runtimes, commit => RuntimeInputsAt(git, f, commit)) && |runtimes| <= 4
    }

    constructor (git: Git, f: Foreign)
      ensures Valid() && this.git == git && this.f == f
    {
      this.git, this.f := git, f;
      bytes, contracts, reviews, approvals, probes, runtimes := [], [], [], [], [], [];
    }

    method GitBytes(commit: string, name: string) returns (r: Option<Bytes>)
      requires Valid()
      modifies this
      ensures Valid() && r == Show(git, commit, name)
    {
      ghost var direct := (k: (string, string)) => Show(git, k.0, k.1);
      r := Find(bytes, (commit, name));
      if r.Some? {
        FoundIsDirect(bytes, (commit, name), direct);
      } else {
        r := Show(git, commit, name);
      }
      if r.Some? {
        RememberAgrees(bytes, (commit, name), r.value, 8, direct);
        bytes := Remember(bytes, (commit, name), r.value, 8);
      }
    }

    method PublicationContract(commit: string) returns (r: Option<string>)
      requires Valid()
      modifies this
      ensures Valid() && r == ShaAt(git, f, commit, "tools/publish-auth-session-v2.py")
    {
      ghost var direct := c => ShaAt(git, f, c, PUBLISHER);
      r := Find(contracts, commit);
      if r.Some? {
        FoundIsDirect(contracts, commit, direct);
      } else {
        var content := GitBytes(commit, PUBLISHER);
        r := if content.None? then None else Some(f.sha256(content.value));
      }
      if r.Some? {
        RememberAgrees(contracts, commit, r.value, 4, direct);
        contracts := Remember(contracts, commit, r.value, 4);
      }
    }

    method SourceReviewDigest(commit: string) returns (r: Option<string>)
      requires Valid()
      modifies this
      ensures Valid() && r == ReviewDigestAt(git, f, commit)
      ensures var bytes := Show(git, commit, "spec/compatibility/evidence/auth-session-v2/source-review.json");
              r.Some? <==> bytes.Some? && f.loads(bytes.value).Some? && f.loads(bytes.value).value.Obj?
      ensures var bytes := Show(git, commit, "spec/compatibility/evidence/auth-session-v2/source-review.json");
              r.Some? ==> r.value == f.digest(f.loads(bytes.value).value)
    {
      ghost var direct := c => ReviewDigestAt(git, f, c);
      r := Find(reviews, commit);
      if r.Some? {
        FoundIsDirect(reviews, commit, direct);
      } else {
        var content := GitBytes(commit, REVIEW);
        if content.Some? {
          var review := f.loads(content.value);
          if review.Some? && review.value.Obj? { r := Some(f.digest(review.value)); }
        }
      }
      if r.Some? {
        RememberAgrees(reviews, commit, r.value, 4, direct);
        reviews := Remember(reviews, commit, r.value, 4);
      }
    }

    method ApprovalSource() returns (r: Option<string>)
      requires Valid()
      modifies this
      ensures Valid()
      ensures r == ShaAt(git, f, "00ec446c34fba61090550de144f2281ac62a6d13", "tools/auth-session-v2-approval.py")
    {
      ghost var direct := c => ShaAt(git, f, c, APPROVAL);
      r := Find(approvals, ANCHOR);
      if r.Some? {
        FoundIsDirect(approvals, ANCHOR, direct);
      } else {
        var content := GitBytes(ANCHOR, APPROVAL);
        r := if content.None? then None else Some(f.sha256(content.value));
      }
      if r.Some? {
        RememberAgrees(approvals, ANCHOR, r.value, 1, direct);
        approvals := Remember(approvals, ANCHOR, r.value, 1);
      }
    }

    /** Reads the named files of one commit, one by one, into a table of digests. */
    method ReadTable(files: map<string, Bytes>, names: set<string>) returns (r: Option<Json>)
      requires names <= files.Keys
      ensures r == Table(f, files, names)
    {
      if names == {} { return None; }
      var table: map<string, Json> := map[];
      var left := names;
      while left != {}
        invariant left <= names
        invariant table == map n | n in files && n in names && n !in left :: Str(f.sha256(files[n]))
        decreases left
      {
        var name :| name in left;
        table := table[name := Str(f.sha256(files[name]))];
        left := left - {name};
      }
      assert files.Keys * names == names;
      assert table == Table(f, files, names).value.o;
      r := Some(Obj(table));
    }

    method ProbeInputs(commit: string) returns (r: Option<Json>)
      requires Valid()
      modifies this
      ensures Valid() && r == ProbeInputsAt(git, f, commit)
    {
      ghost var direct := c => ProbeInputsAt(git, f, c);
      r := Find(probes, commit);
      if r.Some? {
        FoundIsDirect(probes, commit, direct);
      } else {
        var files := Files(git, commit);
        if files.Some? { r := ReadTable(files.value, set n | n in files.value && ProbeFile(n)); }
      }
      if r.Some? {
        RememberAgrees(probes, commit, r.value, 4, direct);
        probes := Remember(probes, commit, r.value, 4);
      }
    }

    method RuntimeInputs(commit: string) returns (r: Option<Json>)
      requires Valid()
      modifies this
      ensures Valid() && r == RuntimeInputsAt(git, f, commit)
    {
      ghost var direct := c => RuntimeInputsAt(git, f, c);
      r := Find(runtimes, commit);
      if r.Some? {
        FoundIsDirect(runtimes, commit, direct);
      } else {
        var files := Files(git, commit);
        if files.Some? { r := ReadTable(files.value, set n | n in files.value && RuntimeFile(n)); }
      }
      if r.Some? {
        RememberAgrees(runtimes, commit, r.value, 4, direct);
        runtimes := Remember(runtimes, commit, r.value, 4);
      }
    }
  }
}
