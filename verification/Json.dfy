/** JSON values as Python reads them, with Python's equality, and the foreign codecs as parameters. */
module Json {
  import opened Common
  import opened Texts

  type Bytes = seq<bv8>

  datatype Json =
    | Null
    | Bool(b: bool)
    | Int(n: int)
    | Float(x: real)
    | Str(s: string)
    | Arr(a: seq<Json>)
    | Obj(o: map<string, Json>)

  /** SHA-256 in hexadecimal, of bytes and of a value's canonical text, and the JSON codec. */
  datatype Foreign = Foreign(
    sha256: Bytes -> string,
    digest: Json -> string,
    loads: Bytes -> Option<Json>,
    pretty: Json -> Bytes)

  predicate IsNumber(j: Json) {
    j.Bool? || j.Int? || j.Float?
  }

  /** A boolean is a number to `==`. */
  function NumberOf(j: Json): real
    requires IsNumber(j)
  {
    match j
    case Bool(b) => if b then 1.0 else 0.0
    case Int(n) => n as real
    case Float(x) => x
  }

  /** Python's `==` on what a JSON text can hold. */
  predicate Same(x: Json, y: Json)
    decreases x
  {
    if IsNumber(x) && IsNumber(y) then NumberOf(x) == NumberOf(y)
    else
      match (x, y)
      case (Null, Null) => true
      case (Str(s), Str(t)) => s == t
      case (Arr(a), Arr(b)) => |a| == |b| && forall i :: 0 <= i < |a| ==> Same(a[i], b[i])
      case (Obj(a), Obj(b)) => a.Keys == b.Keys && forall k :: k in a ==> Same(a[k], b[k])
      case _ => false
  }

  /** Numbers are compared by value, with True as 1 and False as 0; nothing else equals a number. */
  lemma SameNumbers(b: bool, c: bool, m: int, n: int, x: real, y: real, j: Json)
    ensures Same(Int(m), Int(n)) <==> m == n
    ensures Same(Bool(b), Bool(c)) <==> b == c
    ensures Same(Bool(b), Int(n)) <==> n == (if b then 1 else 0)
    ensures Same(Int(n), Float(x)) <==> n as real == x
    ensures Same(Bool(b), Float(x)) <==> x == (if b then 1.0 else 0.0)
    ensures Same(Float(x), Float(y)) <==> x == y
    ensures !(j.Bool? || j.Int? || j.Float?) ==> !Same(j, Int(n)) && !Same(j, Bool(b)) && !Same(j, Float(x))
  {
    assert n as real == 1.0 <==> n == 1;
    assert n as real == 0.0 <==> n == 0;
    assert m as real == n as real <==> m == n;
  }

  lemma {:induction false} SameSymmetric(x: Json, y: Json)
    ensures Same(x, y) == Same(y, x)
    decreases x
  {
    match (x, y)
    case (Arr(a), Arr(b)) =>
      if |a| == |b| {
        forall i | 0 <= i < |a| ensures Same(a[i], b[i]) == Same(b[i], a[i]) { SameSymmetric(a[i], b[i]); }
      }
    case (Obj(a), Obj(b)) =>
      if a.Keys == b.Keys {
        forall k | k in a ensures Same(a[k], b[k]) == Same(b[k], a[k]) { SameSymmetric(a[k], b[k]); }
      }
    case _ =>
  }

  lemma {:induction false} SameReflexive(x: Json)
    ensures Same(x, x)
  {
    match x
    case Arr(a) => forall i | 0 <= i < |a| ensures Same(a[i], a[i]) { SameReflexive(a[i]); }
    case Obj(o) => forall k | k in o ensures Same(o[k], o[k]) { SameReflexive(o[k]); }
    case _ =>
  }

  /** An object of strings, such as a table of digests, equals only itself. */
  lemma SameStrings(x: Json, y: Json)
    requires y.Obj? && (forall k :: k in y.o ==> y.o[k].Str?)
    ensures Same(x, y) <==> x == y
  {
    if Same(x, y) {
      forall k | k in y.o ensures x.o[k] == y.o[k] { assert Same(x.o[k], y.o[k]); }
      assert x.o == y.o;
    } else if x == y {
      SameReflexive(x);
    }
  }

  // ----- Lookups -----

  predicate Has(j: Json, k: string) {
    j.Obj? && k in j.o
  }

  /** `j.get(k)` of a dictionary. */
  function Get(j: Json, k: string): Json {
    if Has(j, k) then j.o[k] else Null
  }

  predicate Keys(j: Json, ks: set<string>) {
    j.Obj? && j.o.Keys == ks
  }

  predicate IsTrue(j: Json) {
    j == Bool(true)
  }

  predicate Within(j: Json, low: int, high: int) {
    j.Int? && low <= j.n <= high
  }

  // ----- Text shapes -----

  predicate Hex(j: Json, n: nat) {
    j.Str? && HexText(j.s, n)
  }

  predicate DateChar(c: char) {
    '0' <= c <= '9' || c in {'T', ':', '.', '+', '-'}
  }

  predicate Date(j: Json) {
    j.Str? && j.s != "" && forall i :: 0 <= i < |j.s| ==> DateChar(j.s[i])
  }

  predicate Digits(s: string) {
    s != "" && forall i :: 0 <= i < |s| ==> '0' <= s[i] <= '9'
  }

  /** Three groups of digits with a dot between them. */
  predicate VersionText(s: string) {
    exists i, j :: 0 <= i < j < |s| && s[i] == '.' && s[j] == '.' && Digits(s[..i]) && Digits(s[i + 1..j]) &&
      Digits(s[j + 1..])
  }
}
