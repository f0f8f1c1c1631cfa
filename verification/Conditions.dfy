/**
 The condition of a job (scripts/heavy-verification-contract.rb): the text is cut at every `&&`
 and each term must be one of four comparisons. A condition is read here as a disjunction of
 conjunctions of terms, each term a text whose quotes and parentheses close; nothing is known
 about the meaning of a term that is not one of the four.
 */
module Conditions {
  import opened Common
  import opened Texts
  import opened Expressions

  // ----- Terms -----

  datatype Subject = PlanResult | PlanJob | PlanSkip | MutantsCount

  datatype Atom = Always | Test(subject: Subject, equal: bool, literal: string)

  function NameOf(subject: Subject): string {
    match subject
    case PlanResult => "needs.plan.result"
    case PlanJob => "needs.plan.outputs.job"
    case PlanSkip => "needs.plan.outputs.skip"
    case MutantsCount => "needs.mutants.outputs.count"
  }

  predicate LowerOrDash(s: string) {
    forall i :: 0 <= i < |s| ==> 'a' <= s[i] <= 'z' || s[i] == '-'
  }

  /** Which comparisons are allowed for which subject. */
  predicate Allowed(subject: Subject, equal: bool, literal: string) {
    match subject
    case PlanResult => equal && literal == "success"
    case MutantsCount => !equal && literal == "0"
    case _ => literal != "" && LowerOrDash(literal)
  }

  function Left(s: string): string {
    if s != "" && Blank(s[0]) then Left(s[1..]) else s
  }

  /** The comparison of a subject with a quoted text, if that is what the term is. */
  function TestOf(s: string, subject: Subject): Option<Atom> {
    var name := NameOf(subject);
    if !(name <= s) then None
    else
      var operator := Left(s[|name|..]);
      if |operator| < 2 || operator[..2] !in {"==", "!="} then None
      else
        var quoted := Left(operator[2..]);
        if |quoted| < 2 || quoted[0] != '\'' || quoted[|quoted| - 1] != '\'' then None
        else
          var literal := quoted[1..|quoted| - 1];
          if Allowed(subject, operator[..2] == "==", literal)
          then Some(Test(subject, operator[..2] == "==", literal))
          else None
  }

  function AtomOf(s: string): Option<Atom> {
    if s == "always()" then Some(Always)
    else if TestOf(s, PlanResult).Some? then TestOf(s, PlanResult)
    else if TestOf(s, PlanJob).Some? then TestOf(s, PlanJob)
    else if TestOf(s, PlanSkip).Some? then TestOf(s, PlanSkip)
    else TestOf(s, MutantsCount)
  }

  // ----- Which texts are terms -----

  predicate AllBlank(s: string) {
    forall i :: 0 <= i < |s| ==> Blank(s[i])
  }

  /** The text is `name`, blanks, `operator`, blanks, and the quoted `literal`. */
  ghost predicate Reads(s: string, name: string, operator: string, literal: string) {
    exists gap, more :: AllBlank(gap) && AllBlank(more) &&
      s == name + (gap + (operator + (more + ("'" + literal + "'"))))
  }

  lemma {:induction false} LeftOf(s: string) returns (gap: string)
    ensures s == gap + Left(s) && AllBlank(gap)
  {
    gap := "";
    if s != "" && Blank(s[0]) {
      gap := LeftOf(s[1..]);
      assert s == [s[0]] + s[1..];
      gap := [s[0]] + gap;
    }
  }

  lemma {:induction false} LeftStops(gap: string, s: string)
    requires AllBlank(gap) && s != "" && !Blank(s[0])
    ensures Left(gap + s) == s
  {
    if gap == "" {
      assert gap + s == s;
    } else {
      assert (gap + s)[1..] == gap[1..] + s;
      LeftStops(gap[1..], s);
    }
  }

  lemma QuotedLiteral(literal: string)
    ensures var q := "'" + literal + "'"; |q| >= 2 && q[0] == '\'' && q[|q| - 1] == '\'' && q[1..|q| - 1] == literal
  {
  }

  /** Reading a comparison gives it back. */
  lemma TestReads(s: string, subject: Subject, equal: bool, literal: string)
    ensures TestOf(s, subject) == Some(Test(subject, equal, literal)) <==>
              Reads(s, NameOf(subject), if equal then "==" else "!=", literal) && Allowed(subject, equal, literal)
  {
    hide NameOf, Allowed, Left;
    var name, sign := NameOf(subject), if equal then "==" else "!=";
    if TestOf(s, subject) == Some(Test(subject, equal, literal)) {
      var operator := Left(s[|name|..]);
      var quoted := Left(operator[2..]);
      var gap := LeftOf(s[|name|..]);
      var more := LeftOf(operator[2..]);
      assert quoted == "'" + literal + "'";
      assert operator == sign + (more + quoted) by { assert operator == operator[..2] + operator[2..]; }
      assert s == name + (gap + operator);
    }
    if Reads(s, name, sign, literal) && Allowed(subject, equal, literal) {
      var gap, more :| AllBlank(gap) && AllBlank(more) && s == name + (gap + (sign + (more + ("'" + literal + "'"))));
      var quoted := "'" + literal + "'";
      var operator := sign + (more + quoted);
      QuotedLiteral(literal);
      assert s[|name|..] == gap + operator;
      LeftStops(gap, operator);
      assert operator[..2] == sign && operator[2..] == more + quoted;
      LeftStops(more, quoted);
    }
  }

  lemma NamesDiffer(s: string, x: Subject, y: Subject)
    requires NameOf(x) <= s && NameOf(y) <= s
    ensures x == y
  {
    assert |s| >= 17;
    assert s[6] == NameOf(x)[6] == NameOf(y)[6];
    assert s[11] == NameOf(x)[11] == NameOf(y)[11];
    assert x.PlanJob? || x.PlanSkip? ==> s[19] == NameOf(x)[19];
    assert y.PlanJob? || y.PlanSkip? ==> s[19] == NameOf(y)[19];
  }

  lemma TestIsOne(s: string, x: Subject, y: Subject)
    requires TestOf(s, x).Some? && TestOf(s, y).Some?
    ensures x == y
  {
    hide NameOf, Allowed, Left;
    NamesDiffer(s, x, y);
  }

  lemma TestIsOfSubject(s: string, x: Subject)
    requires TestOf(s, x).Some?
    ensures TestOf(s, x).value.Test? && TestOf(s, x).value.subject == x
  {
  }

  lemma AtomOfTest(s: string, x: Subject, atom: Atom)
    requires s != "always()"
    ensures atom.Test? && atom.subject == x ==> (AtomOf(s) == Some(atom) <==> TestOf(s, x) == Some(atom))
  {
    hide TestOf;
    forall y | TestOf(s, y).Some? ensures TestOf(s, y).value.Test? &&
      TestOf(s, y).value.subject == y { TestIsOfSubject(s, y); }
    forall y, z | TestOf(s, y).Some? && TestOf(s, z).Some? ensures y == z { TestIsOne(s, y, z); }
  }

  lemma AlwaysIsNoTest(subject: Subject)
    ensures TestOf("always()", subject).None?
  {
    assert NameOf(subject)[0] == 'n' && "always()"[0] == 'a';
  }

  /**
   Which terms are allowed, and what each compares: the plan's result with `success`, its job or
   skip output with lower-case letters and dashes, either way, and the count of mutants with `0`.
   */
  lemma AtomIff(s: string, atom: Atom)
    ensures AtomOf(s) == Some(atom) <==>
              || (atom == Always && s == "always()")
              || (atom == Test(PlanResult, true, "success") && Reads(s, "needs.plan.result", "==", "success"))
              || (atom == Test(MutantsCount, false, "0") && Reads(s, "needs.mutants.outputs.count", "!=", "0"))
              || (&& atom.Test? && (atom.subject == PlanJob || atom.subject == PlanSkip)
                  && atom.literal != "" && (forall i :: 0 <= i < |atom.literal| ==>
                                              'a' <= atom.literal[i] <= 'z' || atom.literal[i] == '-')
                  && Reads(s, if atom.subject == PlanJob then "needs.plan.outputs.job" else "needs.plan.outputs.skip",
                           if atom.equal then "==" else "!=", atom.literal))
  {
    hide TestOf, Reads;
    if atom.Test? {
      AlwaysIsNoTest(atom.subject);
      TestReads(s, atom.subject, atom.equal, atom.literal);
      if s != "always()" { AtomOfTest(s, atom.subject, atom); }
    } else if s != "always()" {
      forall y | TestOf(s, y).Some? ensures TestOf(s, y).value.Test? { TestIsOfSubject(s, y); }
    }
  }

  // ----- The contract -----

  const AND := "&&"

  /** Cutting at every `&&`, from the left. */
  function Pieces(s: string): seq<string>
    decreases |s|
  {
    var at := FindFrom(s, AND, 0);
    if at.None? then [s] else [s[..at.value]] + Pieces(s[at.value + 2..])
  }

  /** Empty pieces at the end are not kept. */
  function WithoutTrailing(pieces: seq<string>): seq<string> {
    if pieces != [] && pieces[|pieces| - 1] == "" then WithoutTrailing(pieces[..|pieces| - 1]) else pieces
  }

  predicate IsAtom(piece: string) {
    AtomOf(Strip(piece)).Some?
  }

  predicate AllAtoms(pieces: seq<string>) {
    forall i :: 0 <= i < |pieces| ==> IsAtom(pieces[i])
  }

  predicate TermsAllowed(s: string) {
    AllAtoms(WithoutTrailing(Pieces(s)))
  }

  predicate Accepted(s: string) {
    TermsAllowed(s) && FindFrom(s, "inputs.", 0).None? && FindFrom(s, "github.", 0).None?
  }

  // ----- Quotes and parentheses -----

  /** Whether a quote is open, and how many parentheses are. */
  datatype Nesting = Nesting(quoted: bool, depth: int)

  const TOP := Nesting(false, 0)

  function After(n: Nesting, c: char): Nesting {
    if c == '\'' then n.(quoted := !n.quoted)
    else if n.quoted then n
    else if c == '(' then n.(depth := n.depth + 1)
    else if c == ')' then n.(depth := n.depth - 1)
    else n
  }

  function Through(n: Nesting, s: string): Nesting
    decreases |s|
  {
    if s == "" then n else Through(After(n, s[0]), s[1..])
  }

  lemma {:induction false} ThroughBoth(n: Nesting, s: string, t: string)
    ensures Through(n, s + t) == Through(Through(n, s), t)
    decreases |s|
  {
    if s == "" {
      assert s + t == t;
    } else {
      assert (s + t)[0] == s[0] && (s + t)[1..] == s[1..] + t;
      ThroughBoth(After(n, s[0]), s[1..], t);
    }
  }

  predicate Plain(s: string) {
    forall i :: 0 <= i < |s| ==> s[i] !in {'\'', '(', ')', '&', '|'}
  }

  predicate NoOperator(s: string) {
    forall i :: 0 <= i < |s| ==> s[i] !in {'&', '|'}
  }

  lemma {:induction false} PlainStays(n: Nesting, s: string)
    requires Plain(s)
    ensures Through(n, s) == n
  {
    if s != "" { PlainStays(n, s[1..]); }
  }

  lemma SpaceIsPlain(s: string)
    requires AllSpace(s)
    ensures Plain(s)
  {
    forall i | 0 <= i < |s| ensures s[i] !in {'\'', '(', ')', '&', '|'} { assert Space(s[i]); }
  }

  // ----- Allowed terms close their quotes and hold no operator -----

  lemma {:induction false} LeftIs(s: string) returns (gap: string)
    ensures s == gap + Left(s) && Plain(gap)
  {
    gap := "";
    if s != "" && Blank(s[0]) {
      gap := LeftIs(s[1..]);
      assert s == [s[0]] + s[1..];
      gap := [s[0]] + gap;
    }
  }

  lemma NamesArePlain(subject: Subject)
    ensures Plain(NameOf(subject))
  {
    match subject
    case PlanResult =>
    case PlanJob =>
    case PlanSkip =>
    case MutantsCount =>
  }

  lemma LiteralsArePlain(subject: Subject, equal: bool, literal: string)
    requires Allowed(subject, equal, literal)
    ensures Plain(literal)
  {
    if subject.PlanJob? || subject.PlanSkip? { assert LowerOrDash(literal); }
  }

  lemma QuotedText(s: string)
    requires |s| >= 2 && s[0] == '\'' && s[|s| - 1] == '\''
    ensures s == "'" + s[1..|s| - 1] + "'"
  {
  }

  lemma PlainParts(name: string, gap: string, operator: string, more: string)
    requires Plain(name) && Plain(gap) && operator in {"==", "!="} && Plain(more)
    ensures Plain(name + (gap + (operator + more)))
  {
  }

  lemma Regrouped(name: string, gap: string, operator: string, more: string, quoted: string)
    ensures name + (gap + (operator + (more + quoted))) == name + (gap + (operator + more)) + quoted
  {
  }

  /** A comparison is a plain text, a quote, a plain text and a quote. */
  lemma TestShape(s: string, subject: Subject) returns (front: string, literal: string)
    requires TestOf(s, subject).Some?
    ensures s == front + ("'" + literal + "'") && Plain(front) && Plain(literal)
  {
    hide Plain, NameOf, Allowed, Left;
    var name := NameOf(subject);
    var operator := Left(s[|name|..]);
    var quoted := Left(operator[2..]);
    literal := quoted[1..|quoted| - 1];
    NamesArePlain(subject);
    LiteralsArePlain(subject, operator[..2] == "==", literal);
    var gap := LeftIs(s[|name|..]);
    var more := LeftIs(operator[2..]);
    front := name + (gap + (operator[..2] + more));
    PlainParts(name, gap, operator[..2], more);
    QuotedText(quoted);
    assert operator == operator[..2] + (more + quoted);
    assert s == name + (gap + operator);
    Regrouped(name, gap, operator[..2], more, quoted);
  }

  lemma AtomCloses(s: string)
    requires AtomOf(s).Some?
    ensures s != "" && Through(TOP, s) == TOP && NoOperator(s)
  {
    if s == "always()" {
      assert s == "always" + "()";
      ThroughBoth(TOP, "always", "()");
      PlainStays(TOP, "always");
      assert "()"[1..] == ")" && ")"[1..] == "";
      assert Through(TOP, "()") == Through(Nesting(false, 1), ")") == TOP;
    } else {
      hide TestOf;
      var subject :| TestOf(s, subject).Some?;
      var front, literal := TestShape(s, subject);
      QuotedCloses(front, literal);
    }
  }

  lemma QuotedCloses(front: string, literal: string)
    requires Plain(front) && Plain(literal)
    ensures Through(TOP, front + ("'" + literal + "'")) == TOP
    ensures NoOperator(front + ("'" + literal + "'"))
  {
    ThroughBoth(TOP, front, "'" + literal + "'");
    PlainStays(TOP, front);
    ThroughBoth(TOP, "'" + literal, "'");
    ThroughBoth(TOP, "'", literal);
    PlainStays(Nesting(true, 0), literal);
    assert Through(TOP, "'") == Nesting(true, 0);
    assert Through(Nesting(true, 0), "'") == TOP;
  }

  /** The same of a term with spaces around it. */
  lemma PieceCloses(piece: string)
    requires IsAtom(piece)
    ensures piece != "" && Through(TOP, piece) == TOP && NoOperator(piece)
  {
    hide AtomOf, Strip;
    var lead, trail := StripIs(piece);
    AtomCloses(Strip(piece));
    SpaceIsPlain(lead);
    SpaceIsPlain(trail);
    ThroughBoth(TOP, lead + Strip(piece), trail);
    ThroughBoth(TOP, lead, Strip(piece));
    PlainStays(TOP, lead);
    PlainStays(TOP, trail);
  }

  // ----- Conditions -----

  /**
   A term is not empty, closes what it opens, and has `&` and `|` inside quotes or parentheses
   only.
   */
  ghost predicate IsTerm(t: string) {
    && t != "" && Through(TOP, t) == TOP
    && forall i :: 0 <= i < |t| && t[i] in {'&', '|'} ==> Through(TOP, t[..i]) != TOP
  }

  ghost predicate AllTerms(ts: seq<string>) {
    ts != [] && forall i :: 0 <= i < |ts| ==> IsTerm(ts[i])
  }

  /** A disjunction of conjunctions of terms. */
  type Condition = seq<seq<string>>

  ghost predicate WellFormed(c: Condition) {
    c != [] && forall i :: 0 <= i < |c| ==> AllTerms(c[i])
  }

  function Join(ts: seq<string>, operator: string): string {
    if ts == [] then "" else if |ts| == 1 then ts[0] else ts[0] + operator + Join(ts[1..], operator)
  }

  function Conjunctions(c: Condition): seq<string> {
    if c == [] then [] else [Join(c[0], AND)] + Conjunctions(c[1..])
  }

  function TextOf(c: Condition): string {
    Join(Conjunctions(c), "||")
  }

  // ----- Splitting inverts joining -----

  lemma {:induction false} EndIsKept(s: string)
    requires s != "" && s[|s| - 1] != '&'
    ensures Pieces(s) != [] && Pieces(s)[|Pieces(s)| - 1] != ""
    decreases |s|
  {
    FindFromIs(s, AND, 0);
    var at := FindFrom(s, AND, 0);
    if at.Some? {
      assert s[at.value..at.value + 2][1] == '&';
      EndIsKept(s[at.value + 2..]);
    }
  }

  lemma TermEnd(t: string)
    requires IsTerm(t)
    ensures t[|t| - 1] !in {'&', '|'}
  {
    var n := |t| - 1;
    assert t == t[..n] + [t[n]];
    ThroughBoth(TOP, t[..n], [t[n]]);
    assert Through(Through(TOP, t[..n]), [t[n]]) == After(Through(TOP, t[..n]), t[n]);
  }

  lemma {:induction false} JoinEnd(ts: seq<string>, operator: string)
    requires ts != [] && forall i :: 0 <= i < |ts| ==> ts[i] != "" && ts[i][|ts[i]| - 1] !in {'&', '|'}
    ensures Join(ts, operator) != "" && Join(ts, operator)[|Join(ts, operator)| - 1] !in {'&', '|'}
  {
    if |ts| > 1 { JoinEnd(ts[1..], operator); }
  }

  /** Where pieces hold no `|`, neither does the text. */
  lemma {:induction false} NoBar(s: string, i: nat)
    requires forall k :: 0 <= k < |Pieces(s)| ==> NoOperator(Pieces(s)[k])
    requires i < |s|
    ensures s[i] != '|'
    decreases |s|
  {
    FindFromIs(s, AND, 0);
    var at := FindFrom(s, AND, 0);
    assert NoOperator(Pieces(s)[0]);
    if at.None? {
      assert Pieces(s) == [s];
    } else {
      var rest := Pieces(s[at.value + 2..]);
      assert Pieces(s) == [s[..at.value]] + rest;
      if i < at.value {
        assert s[i] == Pieces(s)[0][i];
      } else if i < at.value + 2 {
        assert s[i] == AND[i - at.value];
      } else {
        forall k | 0 <= k < |rest| ensures NoOperator(rest[k]) { assert rest[k] == Pieces(s)[k + 1]; }
        NoBar(s[at.value + 2..], i - at.value - 2);
      }
    }
  }

  /** Without a cut inside the first term, the first cut is at its end. */
  lemma CutAtEnd(ts: seq<string>)
    requires ts != []
    requires forall i :: 0 <= i < |ts[0]| ==> !OccursAt(Join(ts, AND), AND, i)
    ensures Pieces(Join(ts, AND)) == [ts[0]] + (if |ts| == 1 then [] else Pieces(Join(ts[1..], AND)))
  {
    var s := Join(ts, AND);
    var t := ts[0];
    FindFromIs(s, AND, 0);
    if |ts| > 1 {
      assert OccursAt(s, AND, |t|);
      assert FindFrom(s, AND, 0) == Some(|t|);
      assert s[..|t|] == t && s[|t| + 2..] == Join(ts[1..], AND);
    }
  }

  /** A cut inside the first term leaves something open. */
  lemma CutInside(ts: seq<string>, i: nat)
    requires ts != [] && IsTerm(ts[0]) && i < |ts[0]| && OccursAt(Join(ts, AND), AND, i)
    ensures Through(TOP, Join(ts, AND)[..i]) != TOP && ts[0][i] == '&'
  {
    hide Through;
    var s := Join(ts, AND);
    assert s[i] == s[i..i + 2][0] == '&';
    assert s[..i] == ts[0][..i] && s[i] == ts[0][i];
  }

  lemma FirstCut(ts: seq<string>)
    requires AllTerms(ts) && Through(TOP, Pieces(Join(ts, AND))[0]) == TOP
    ensures forall i :: 0 <= i < |ts[0]| ==> !OccursAt(Join(ts, AND), AND, i)
  {
    hide Through, IsTerm, Join, OccursAt;
    var s := Join(ts, AND);
    assert IsTerm(ts[0]);
    FindFromIs(s, AND, 0);
    var at := FindFrom(s, AND, 0);
    if at.Some? && at.value < |ts[0]| { CutInside(ts, at.value); }
  }

  lemma AtomCut(ts: seq<string>)
    requires AllTerms(ts) && IsAtom(ts[0])
    ensures forall i :: 0 <= i < |ts[0]| ==> !OccursAt(Join(ts, AND), AND, i)
  {
    hide IsAtom, IsTerm, Join, OccursAt;
    PieceCloses(ts[0]);
    assert IsTerm(ts[0]);
    forall i | 0 <= i < |ts[0]| ensures !OccursAt(Join(ts, AND), AND, i) {
      if OccursAt(Join(ts, AND), AND, i) { CutInside(ts, i); }
    }
  }

  lemma {:induction false} SplitInvertsJoin(ts: seq<string>)
    requires AllTerms(ts)
    requires AllAtoms(Pieces(Join(ts, AND))) || AllAtoms(ts)
    ensures Pieces(Join(ts, AND)) == ts
  {
    hide IsAtom, Pieces, IsTerm;
    if AllAtoms(Pieces(Join(ts, AND))) {
      PiecesExist(Join(ts, AND));
      PieceCloses(Pieces(Join(ts, AND))[0]);
      FirstCut(ts);
    } else {
      AtomCut(ts);
    }
    CutAtEnd(ts);
    if |ts| > 1 {
      assert AllAtoms(Pieces(Join(ts, AND))) ==> AllAtoms(Pieces(Join(ts[1..], AND))) by {
        var rest := Pieces(Join(ts[1..], AND));
        forall k | 0 <= k < |rest| && AllAtoms(Pieces(Join(ts, AND))) ensures IsAtom(rest[k]) {
          assert rest[k] == Pieces(Join(ts, AND))[k + 1];
        }
      }
      SplitInvertsJoin(ts[1..]);
    }
  }

  lemma PiecesExist(s: string)
    ensures |Pieces(s)| > 0
  {
  }

  // ----- What an accepted condition is -----

  lemma ConjunctionEnd(ts: seq<string>)
    requires AllTerms(ts)
    ensures Join(ts, AND) != "" && Join(ts, AND)[|Join(ts, AND)| - 1] !in {'&', '|'}
  {
    forall i | 0 <= i < |ts| ensures ts[i] != "" && ts[i][|ts[i]| - 1] !in {'&', '|'} {
      assert IsTerm(ts[i]);
      TermEnd(ts[i]);
    }
    JoinEnd(ts, AND);
  }

  lemma {:induction false} ConjunctionsAre(c: Condition)
    ensures |Conjunctions(c)| == |c| && forall i :: 0 <= i < |c| ==> Conjunctions(c)[i] == Join(c[i], AND)
  {
    if c != [] { ConjunctionsAre(c[1..]); }
  }

  lemma NothingTrails(c: Condition)
    requires WellFormed(c)
    ensures WithoutTrailing(Pieces(TextOf(c))) == Pieces(TextOf(c))
  {
    ConjunctionsAre(c);
    forall i | 0 <= i < |c| ensures Join(c[i], AND) != "" && Join(c[i], AND)[|Join(c[i], AND)| - 1] !in {'&', '|'} {
      ConjunctionEnd(c[i]);
    }
    JoinEnd(Conjunctions(c), "||");
    EndIsKept(TextOf(c));
  }

  /** A disjunction shows in the text. */
  lemma BarShows(c: Condition)
    requires |c| > 1
    ensures exists i :: 0 <= i < |TextOf(c)| && TextOf(c)[i] == '|'
  {
    ConjunctionsAre(c);
    var parts := Conjunctions(c);
    assert TextOf(c) == parts[0] + "||" + Join(parts[1..], "||");
    assert TextOf(c)[|parts[0]|] == '|';
  }

  /**
   A well-formed condition passes the test of its terms if and only if it is one conjunction
   of allowed terms; the pieces tested are then its terms.
   */
  lemma AllowedIsConjunction(c: Condition)
    requires WellFormed(c)
    ensures TermsAllowed(TextOf(c)) <==> |c| == 1 && AllAtoms(c[0])
    ensures TermsAllowed(TextOf(c)) ==> Pieces(TextOf(c)) == c[0]
  {
    hide IsAtom, Pieces, WithoutTrailing;
    NothingTrails(c);
    var s := TextOf(c);
    if AllAtoms(Pieces(s)) && |c| > 1 {
      forall k | 0 <= k < |Pieces(s)| ensures NoOperator(Pieces(s)[k]) { PieceCloses(Pieces(s)[k]); }
      BarShows(c);
      var i :| 0 <= i < |s| && s[i] == '|';
      NoBar(s, i);
    }
    if |c| == 1 {
      ConjunctionsAre(c);
      assert s == Join(c[0], AND);
      if AllAtoms(Pieces(s)) || AllAtoms(c[0]) { SplitInvertsJoin(c[0]); }
    }
  }

  // ----- What a condition reads -----

  datatype Context = Context(planResult: string, planJob: string, planSkip: string, mutantsCount: string,
                             rest: map<string, string>)

  predicate Agree(x: Context, y: Context) {
    x.planResult == y.planResult && x.planJob == y.planJob && x.planSkip == y.planSkip &&
      x.mutantsCount == y.mutantsCount
  }

  function Look(x: Context, subject: Subject): string {
    match subject
    case PlanResult => x.planResult
    case PlanJob => x.planJob
    case PlanSkip => x.planSkip
    case MutantsCount => x.mutantsCount
  }

  /** The runner's semantics: how it compares texts, and what any other term means in a context. */
  datatype Runner = Runner(same: (string, string) -> bool, other: (string, Context) -> bool)

  function TermHolds(runner: Runner, t: string, x: Context): bool {
    match AtomOf(Strip(t))
    case Some(Always) => true
    case Some(Test(subject, equal, literal)) => runner.same(Look(x, subject), literal) == equal
    case None => runner.other(t, x)
  }

  predicate Holds(runner: Runner, c: Condition, x: Context) {
    exists i :: 0 <= i < |c| && forall k :: 0 <= k < |c[i]| ==> TermHolds(runner, c[i][k], x)
  }

  /**
   An accepted condition reads nothing but the plan's result, its job and skip outputs and the
   count of mutants.
   */
  lemma ConditionIsIndependent(runner: Runner, c: Condition, x: Context, y: Context)
    requires WellFormed(c) && Accepted(TextOf(c)) && Agree(x, y)
    ensures Holds(runner, c, x) <==> Holds(runner, c, y)
  {
    AllowedIsConjunction(c);
    hide AtomOf, Strip, TextOf, WellFormed, Accepted;
    forall k | 0 <= k < |c[0]| ensures TermHolds(runner, c[0][k], x) == TermHolds(runner, c[0][k], y) {
      assert IsAtom(c[0][k]);
    }
  }
}
