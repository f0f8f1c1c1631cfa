/**
 The expressions of the heavy-verification contract (scripts/heavy-verification-contract.rb): how
 they are cut out of a text, and how the naming expressions are reduced to their tokens.
 */
module Expressions {
  import opened Common
  import opened Texts

  // ----- Naming tokens -----

  const WORDS: seq<string> :=
    ["format", "github.event_name", "github.event.schedule", "inputs.job", "inputs.tag", "inputs.ref",
     "&&", "||", "==", "(", ")", ","]

  /** A quoted text without a quote inside. */
  predicate Quoted(t: string) {
    |t| >= 2 && t[0] == '\'' && t[|t| - 1] == '\'' && forall i :: 0 < i < |t| - 1 ==> t[i] != '\''
  }

  predicate IsToken(t: string) {
    Quoted(t) || t in WORDS || (|t| == 1 && Blank(t[0]))
  }

  function QuoteEnd(s: string, from: nat): Option<nat>
    requires from <= |s|
    decreases |s| - from
  {
    if from == |s| then None else if s[from] == '\'' then Some(from) else QuoteEnd(s, from + 1)
  }

  /** The first of the words, from the k-th on, that the text starts with. */
  function WordAt(s: string, k: nat): Option<nat>
    requires k <= |WORDS|
    decreases |WORDS| - k
  {
    if k == |WORDS| then None else if WORDS[k] <= s then Some(|WORDS[k]|) else WordAt(s, k + 1)
  }

  /** The length of the token that the alternatives, tried in order, match at the start. */
  function TokenAt(s: string): Option<nat> {
    if s == "" then None
    else
      var end := if s[0] == '\'' then QuoteEnd(s, 1) else None;
      if end.Some? then Some(end.value + 1)
      else
        var word := WordAt(s, 0);
        if word.Some? then word else if Blank(s[0]) then Some(1) else None
  }

  /** One removal pass from left to right; what no token matches stays. */
  function Residue(s: string): string
    decreases |s|
  {
    if s == "" then ""
    else
      var n := TokenAt(s);
      if n.Some? && 0 < n.value <= |s| then Residue(s[n.value..]) else [s[0]] + Residue(s[1..])
  }

  function Joined(ts: seq<string>): string {
    if ts == [] then "" else ts[0] + Joined(ts[1..])
  }

  predicate AllTokens(ts: seq<string>) {
    forall i :: 0 <= i < |ts| ==> IsToken(ts[i])
  }

  lemma {:induction false} QuoteEndIs(s: string, from: nat)
    requires from <= |s|
    ensures var e := QuoteEnd(s, from);
            && (e.Some? ==> && from <= e.value < |s| && s[e.value] == '\''
                            && forall i :: from <= i < e.value ==> s[i] != '\'')
            && (e.None? ==> forall i :: from <= i < |s| ==> s[i] != '\'')
    decreases |s| - from
  {
    if from < |s| && s[from] != '\'' { QuoteEndIs(s, from + 1); }
  }

  lemma {:induction false} WordAtIs(s: string, k: nat)
    requires k <= |WORDS|
    ensures var n := WordAt(s, k);
            && (n.Some? ==> exists i :: k <= i < |WORDS| && WORDS[i] <= s && n.value == |WORDS[i]|)
            && (n.None? ==> forall i :: k <= i < |WORDS| ==> !(WORDS[i] <= s))
    decreases |WORDS| - k
  {
    if k < |WORDS| && !(WORDS[k] <= s) { WordAtIs(s, k + 1); }
  }

  /** No word starts another, and none starts with a quote or a blank. */
  lemma WordsArePrefixFree(i: nat, j: nat)
    requires i < |WORDS| && j < |WORDS| && WORDS[i] <= WORDS[j]
    ensures i == j
  {
    assert WORDS[i][0] == WORDS[j][0];
    assert |WORDS[i]| <= |WORDS[j]|;
    assert |WORDS[i]| > 7 ==> WORDS[i][7] == WORDS[j][7];
    assert |WORDS[i]| > 12 ==> WORDS[i][12] == WORDS[j][12];
  }

  lemma WordHeads(i: nat)
    requires i < |WORDS|
    ensures |WORDS[i]| > 0 && WORDS[i][0] != '\'' && !Blank(WORDS[i][0])
  {
  }

  /** The tokens form a prefix code. */
  lemma PrefixCode(t: string, u: string)
    requires IsToken(t) && IsToken(u) && t <= u
    ensures t == u
  {
    assert t[0] == u[0];
    if t in WORDS {
      var i :| 0 <= i < |WORDS| && WORDS[i] == t;
      WordHeads(i);
      assert u in WORDS;
      var j :| 0 <= j < |WORDS| && WORDS[j] == u;
      WordsArePrefixFree(i, j);
    } else if u in WORDS {
      var j :| 0 <= j < |WORDS| && WORDS[j] == u;
      WordHeads(j);
    } else if Quoted(t) {
      assert Quoted(u);
      assert u[|t| - 1] == t[|t| - 1];
    }
  }

  /** A match at the start is a token, and a token at the start is matched. */
  lemma TokenAtIsToken(s: string)
    requires TokenAt(s).Some?
    ensures 0 < TokenAt(s).value <= |s| && IsToken(s[..TokenAt(s).value])
  {
    if s[0] == '\'' { QuoteEndIs(s, 1); }
    WordAtIs(s, 0);
    if !(s[0] == '\'' && QuoteEnd(s, 1).Some?) && WordAt(s, 0).Some? {
      var i :| 0 <= i < |WORDS| && WORDS[i] <= s && WordAt(s, 0).value == |WORDS[i]|;
      WordHeads(i);
      assert s[..|WORDS[i]|] == WORDS[i];
    }
  }

  lemma TokenIsMatched(s: string, t: string)
    requires IsToken(t) && t <= s
    ensures TokenAt(s) == Some(|t|)
  {
    assert s[0] == t[0];
    if s[0] == '\'' { QuoteEndIs(s, 1); }
    WordAtIs(s, 0);
    if t in WORDS {
      var i :| 0 <= i < |WORDS| && WORDS[i] == t;
      WordHeads(i);
    }
    if Quoted(t) { assert s[|t| - 1] == t[|t| - 1] == '\'' && forall i :: 0 < i < |t| - 1 ==> s[i] == t[i]; }
    var n := TokenAt(s);
    TokenAtIsToken(s);
    if |t| <= n.value {
      PrefixCode(t, s[..n.value]);
    } else {
      PrefixCode(s[..n.value], t);
    }
  }

  lemma {:induction false} TokensLeaveNothing(ts: seq<string>)
    requires AllTokens(ts)
    ensures Residue(Joined(ts)) == ""
  {
    if ts != [] {
      var s := Joined(ts);
      TokenIsMatched(s, ts[0]);
      assert s[|ts[0]|..] == Joined(ts[1..]);
      TokensLeaveNothing(ts[1..]);
    }
  }

  /** The tokens that the removal pass took, where it left nothing. */
  function Tokens(s: string): seq<string>
    decreases |s|
  {
    if s == "" then []
    else
      var n := TokenAt(s);
      if n.Some? && 0 < n.value <= |s| then [s[..n.value]] + Tokens(s[n.value..]) else [s]
  }

  lemma {:induction false} NothingLeftIsTokens(s: string)
    requires Residue(s) == ""
    ensures AllTokens(Tokens(s)) && Joined(Tokens(s)) == s
    decreases |s|
  {
    if s != "" {
      var n := TokenAt(s).value;
      TokenAtIsToken(s);
      NothingLeftIsTokens(s[n..]);
      assert s == s[..n] + s[n..];
    }
  }

  /**
   One removal pass leaves nothing if and only if the expression is a concatenation of naming
   tokens.
   */
  lemma ResidueIsExact(s: string)
    ensures Residue(s) == "" <==> exists ts :: AllTokens(ts) && Joined(ts) == s
  {
    if Residue(s) == "" {
      NothingLeftIsTokens(s);
    } else if ts :| AllTokens(ts) && Joined(ts) == s {
      TokensLeaveNothing(ts);
    }
  }

  lemma {:induction false} TokensHaveLength(ts: seq<string>)
    requires AllTokens(ts)
    ensures |Joined(ts)| >= |ts|
  {
    if ts != [] { TokensHaveLength(ts[1..]); }
  }

  /** A text is a concatenation of naming tokens in one way only. */
  lemma {:induction false} DecompositionIsUnique(ts: seq<string>, us: seq<string>)
    requires AllTokens(ts) && AllTokens(us) && Joined(ts) == Joined(us)
    ensures ts == us
  {
    TokensHaveLength(ts);
    TokensHaveLength(us);
    if ts != [] && us != [] {
      var s := Joined(ts);
      TokenIsMatched(s, ts[0]);
      TokenIsMatched(s, us[0]);
      assert ts[0] == s[..|ts[0]|] == us[0];
      assert Joined(ts[1..]) == s[|ts[0]|..] == Joined(us[1..]);
      DecompositionIsUnique(ts[1..], us[1..]);
    }
  }

  /** The names that a naming expression may read. */
  const NAMES: set<string> :=
    {"github.event_name", "github.event.schedule", "inputs.job", "inputs.tag", "inputs.ref"}

  /** A place between two quotes with no quote between them. */
  ghost predicate InQuotes(s: string, i: nat) {
    exists a, b :: 0 <= a < i < b < |s| && s[a] == '\'' && s[b] == '\'' && forall k :: a < k < b ==> s[k] != '\''
  }

  /** A place inside one of the names. */
  ghost predicate InName(s: string, i: nat) {
    exists name, j :: name in NAMES && 0 <= j <= i < j + |name| && OccursAt(s, name, j)
  }

  lemma DottedToken(t: string, k: nat)
    requires IsToken(t) && k < |t| && t[k] == '.'
    ensures Quoted(t) || t in NAMES
  {
    if t in WORDS { var i :| 0 <= i < |WORDS| && WORDS[i] == t; }
  }

  /** A dot outside quotes belongs to one of the five names: nothing else of the context is read. */
  lemma {:induction false} DotsAreNames(ts: seq<string>, i: nat)
    requires AllTokens(ts) && i < |Joined(ts)| && Joined(ts)[i] == '.'
    ensures InQuotes(Joined(ts), i) || InName(Joined(ts), i)
  {
    hide IsToken, Quoted;
    var s, t, rest := Joined(ts), ts[0], Joined(ts[1..]);
    assert s == t + rest;
    if i < |t| {
      DottedToken(t, i);
      if Quoted(t) {
        QuotedPlace(t, rest, i);
      } else {
        assert OccursAt(s, t, 0);
      }
    } else {
      assert s[i] == rest[i - |t|];
      DotsAreNames(ts[1..], i - |t|);
      ShiftedPlace(t, rest, i - |t|);
    }
  }

  lemma QuotedPlace(t: string, rest: string, i: nat)
    requires Quoted(t) && i < |t| && t[i] == '.'
    ensures InQuotes(t + rest, i)
  {
    var s := t + rest;
    assert s[0] == '\'' && s[|t| - 1] == '\'' && forall k :: 0 < k < |t| - 1 ==> s[k] == t[k];
  }

  lemma ShiftedPlace(t: string, rest: string, i: nat)
    requires InQuotes(rest, i) || InName(rest, i)
    ensures InQuotes(t + rest, |t| + i) || InName(t + rest, |t| + i)
  {
    var s := t + rest;
    if InQuotes(rest, i) {
      var a, b :| 0 <= a < i < b < |rest| && rest[a] == '\'' && rest[b] == '\'' && forall k :: a < k < b ==>
                                                                                     rest[k] != '\'';
      assert s[|t| + a] == '\'' && s[|t| + b] == '\'' && forall k :: |t| + a < k < |t| + b ==> s[k] == rest[k - |t|];
      assert InQuotes(s, |t| + i);
    } else {
      var name, j :| name in NAMES && 0 <= j <= i < j + |name| && OccursAt(rest, name, j);
      assert s[|t| + j..|t| + j + |name|] == rest[j..j + |name|];
      assert OccursAt(s, name, |t| + j);
    }
  }

  /** So of an expression that passes. */
  lemma PassedReadsNames(s: string, i: nat)
    requires Residue(s) == "" && i < |s| && s[i] == '.'
    ensures InQuotes(s, i) || InName(s, i)
  {
    NothingLeftIsTokens(s);
    DotsAreNames(Tokens(s), i);
  }

  // ----- Expressions in a text -----

  const OPEN := "${{"
  const CLOSE := "}}"

  /** The body of an expression: from after its opening to before its closing braces. */
  datatype Span = Span(start: nat, end: nat)

  /** The expressions from `from` on: the next opening with the nearest closing, and so forth. */
  function Scan(s: string, from: nat): seq<Span>
    decreases |s| - from
  {
    var open := FindFrom(s, OPEN, from);
    if open.None? then []
    else
      var close := FindFrom(s, CLOSE, open.value + 3);
      if close.None? then [] else [Span(open.value + 3, close.value)] + Scan(s, close.value + 2)
  }

  predicate IsExpression(s: string, e: Span) {
    && 3 <= e.start <= e.end && OccursAt(s, OPEN, e.start - 3) && OccursAt(s, CLOSE, e.end)
    && forall i :: e.start <= i < e.end ==> !OccursAt(s, CLOSE, i)
  }

  lemma ScanStep(s: string, from: nat)
    requires Scan(s, from) != []
    ensures var e := Scan(s, from)[0];
            && IsExpression(s, e) && from + 3 <= e.start <= e.end && e.end + 2 <= |s|
            && Scan(s, from) == [e] + Scan(s, e.end + 2)
  {
    hide OccursAt;
    var open := FindFrom(s, OPEN, from).value;
    FindFromIs(s, OPEN, from);
    FindFromIs(s, CLOSE, open + 3);
  }

  lemma {:induction false} ScanIsInOrder(s: string, from: nat, i: nat, j: nat)
    requires i < |Scan(s, from)|
    ensures IsExpression(s, Scan(s, from)[i]) && from + 3 <= Scan(s, from)[i].start
    ensures i < j < |Scan(s, from)| ==> Scan(s, from)[i].end + 5 <= Scan(s, from)[j].start
    decreases |s| - from
  {
    hide FindFrom, OccursAt, Scan, IsExpression;
    ScanStep(s, from);
    var e := Scan(s, from)[0];
    if i > 0 {
      ScanIsInOrder(s, e.end + 2, i - 1, if j > 0 then j - 1 else 0);
    } else if 0 < j < |Scan(s, from)| {
      ScanIsInOrder(s, e.end + 2, j - 1, 0);
    }
  }

  /**
   The scan yields the expressions in order and apart from each other; none has the closing
   braces inside.
   */
  lemma BodiesAreDisjoint(s: string, i: nat, j: nat)
    requires i < j < |Scan(s, 0)|
    ensures Scan(s, 0)[i].end + 2 <= Scan(s, 0)[j].start - 3
    ensures IsExpression(s, Scan(s, 0)[i]) && IsExpression(s, Scan(s, 0)[j])
  {
    ScanIsInOrder(s, 0, i, j);
    ScanIsInOrder(s, 0, j, i);
  }

  predicate Within(e: Span, p: nat) {
    e.start - 3 <= p < e.end + 2
  }

  ghost predicate Covered(spans: seq<Span>, p: nat) {
    exists k :: 0 <= k < |spans| && Within(spans[k], p)
  }

  lemma ScanStarts(s: string, from: nat, p: nat, q: nat)
    requires from <= p && OccursAt(s, OPEN, p) && p + 3 <= q && OccursAt(s, CLOSE, q)
    ensures Scan(s, from) != [] && Scan(s, from)[0].start <= p + 3
  {
    hide OccursAt;
    FindFromIs(s, OPEN, from);
    FindFromIs(s, CLOSE, FindFrom(s, OPEN, from).value + 3);
  }

  /** No opening that is ever closed escapes the scan. */
  lemma {:induction false} NothingEscapes(s: string, from: nat, p: nat, q: nat)
    requires from <= p && OccursAt(s, OPEN, p) && p + 3 <= q && OccursAt(s, CLOSE, q)
    ensures Covered(Scan(s, from), p)
    decreases |s| - from
  {
    hide FindFrom, OccursAt, Scan, IsExpression;
    ScanStarts(s, from, p, q);
    ScanStep(s, from);
    var e := Scan(s, from)[0];
    if p >= e.end + 2 {
      NothingEscapes(s, e.end + 2, p, q);
      var rest := Scan(s, e.end + 2);
      var k :| 0 <= k < |rest| && Within(rest[k], p);
      assert Within(Scan(s, from)[k + 1], p);
    } else {
      assert Within(Scan(s, from)[0], p);
    }
  }
}
