/**
 * Evidence coverage: what a target's best passage is worth, how category and composite scores follow
 * from it, and when a candidate may be shortlisted. Matching, splitting and the negation and action
 * tests are arbitrary functions; scores are real numbers.
 */
module Coverage {
  import opened Prelude

  datatype Category = Skills | Experience | Projects | Education

  datatype Kind = SkillKind | ResponsibilityKind | DomainKind | ExperienceKind | ProjectKind | EducationKind

  /** `groups` must all be found (any term of a group will do); `substitutes` earn half. */
  datatype Target = Target(
    category: Category,
    kind: Kind,
    groups: seq<seq<string>>,
    substitutes: seq<string>,
    importance: real,
    preference: bool,
    approved: bool)

  datatype Chunk = Chunk(id: int, category: Category, text: string)

  /** The lexical tests, as whatever functions they are. */
  datatype Lexicon = Lexicon(
    split: string -> seq<string>,
    matches: (string, string) -> bool,
    acts: string -> bool,
    negated: string -> bool)

  /** The best passage found so far for a target. */
  datatype Assessment = Assessment(coverage: real, matched: nat, substitute: bool, chunk: Option<int>, passage: string)

  const MISSING := Assessment(0.0, 0, false, None, "")

  predicate ValidTarget(t: Target) {
    t.groups != [] && 0.0 < t.importance
  }

  predicate Applied(k: Kind) {
    k.ExperienceKind? || k.ResponsibilityKind? || k.ProjectKind?
  }

  predicate Direct(a: Assessment) {
    a.coverage == 1.0 && !a.substitute
  }

  // ----- one passage

  predicate AnyMatch(lex: Lexicon, terms: seq<string>, passage: string) {
    exists i :: 0 <= i < |terms| && lex.matches(terms[i], passage)
  }

  function GroupMatch(lex: Lexicon, passage: string): seq<string> -> bool {
    (terms: seq<string>) => AnyMatch(lex, terms, passage)
  }

  /** Applied targets need an action in an applied section; negated passages count for nothing. */
  predicate Usable(lex: Lexicon, t: Target, c: Category, passage: string) {
    && (Applied(t.kind) ==> (c.Experience? || c.Projects?) && lex.acts(passage))
    && !lex.negated(passage)
  }

  function Credit(lex: Lexicon, t: Target, c: Chunk, passage: string): Assessment
    requires t.groups != []
  {
    var matched := Count(t.groups, GroupMatch(lex, passage));
    if matched == 0 && AnyMatch(lex, t.substitutes, passage) then Assessment(0.5, 0, true, Some(c.id), passage)
    else Assessment(matched as real / |t.groups| as real, matched, false, Some(c.id), passage)
  }

  /** The credits of the first `n` passages of a chunk, in order. */
  function PassageCredits(lex: Lexicon, t: Target, c: Chunk, passages: seq<string>): seq<Assessment>
    requires t.groups != []
  {
    if passages == [] then []
    else
      var before, last := PassageCredits(lex, t, c, passages[..|passages| - 1]), passages[|passages| - 1];
      if Usable(lex, t, c.category, last) then before + [Credit(lex, t, c, last)] else before
  }

  function Credits(lex: Lexicon, t: Target, chunks: seq<Chunk>): seq<Assessment>
    requires t.groups != []
  {
    if chunks == [] then []
    else
      var last := chunks[|chunks| - 1];
      Credits(lex, t, chunks[..|chunks| - 1]) + PassageCredits(lex, t, last, lex.split(last.text))
  }

  /** The first credit of the greatest coverage above zero. */
  function Best(credits: seq<Assessment>): Assessment {
    if credits == [] then MISSING
    else
      var before, last := Best(credits[..|credits| - 1]), credits[|credits| - 1];
      if last.coverage > before.coverage then last else before
  }

  function Assess(lex: Lexicon, t: Target, chunks: seq<Chunk>): Assessment
    requires t.groups != []
  {
    Best(Credits(lex, t, chunks))
  }

  /** The nested loops that keep the best passage. */
  method AssessTarget(lex: Lexicon, t: Target, chunks: seq<Chunk>) returns (best: Assessment)
    requires t.groups != []
    ensures best == Assess(lex, t, chunks)
  {
    best := MISSING;
    var i := 0;
    while i < |chunks|
      invariant 0 <= i <= |chunks| && best == Assess(lex, t, chunks[..i])
    {
      var chunk := chunks[i];
      assert chunks[..i + 1][..i] == chunks[..i];
      ghost var before := Credits(lex, t, chunks[..i]);
      var passages := lex.split(chunk.text);
      assert before + [] == before;
      var k := 0;
      while k < |passages|
        invariant 0 <= k <= |passages|
        invariant best == Best(before + PassageCredits(lex, t, chunk, passages[..k]))
      {
        var passage := passages[k];
        assert passages[..k + 1][..k] == passages[..k];
        var matched := MatchedGroups(lex, t, passage);
        var coverage := matched as real / |t.groups| as real;
        var substitute := false;
        if matched == 0 && AnyMatch(lex, t.substitutes, passage) {
          coverage, substitute := 0.5, true;
        }
        if Usable(lex, t, chunk.category, passage) {
          ghost var credits := before + PassageCredits(lex, t, chunk, passages[..k]);
          assert before + PassageCredits(lex, t, chunk, passages[..k + 1]) == credits + [Credit(lex, t, chunk, passage)];
          assert (credits + [Credit(lex, t, chunk, passage)])[..|credits|] == credits;
          if coverage > best.coverage {
            best := Assessment(coverage, matched, substitute, Some(chunk.id), passage);
          }
        }
        k := k + 1;
      }
      assert passages[..k] == passages;
      i := i + 1;
    }
    assert chunks[..i] == chunks;
  }

  method MatchedGroups(lex: Lexicon, t: Target, passage: string) returns (matched: nat)
    ensures matched == Count(t.groups, GroupMatch(lex, passage))
  {
    matched := 0;
    var g := 0;
    while g < |t.groups|
      invariant 0 <= g <= |t.groups| && matched == Count(t.groups[..g], GroupMatch(lex, passage))
    {
      assert t.groups[..g + 1][..g] == t.groups[..g];
      if AnyMatch(lex, t.groups[g], passage) {
        matched := matched + 1;
      }
      g := g + 1;
    }
    assert t.groups[..g] == t.groups;
  }

  // ----- what the best passage means

  ghost predicate CreditOk(t: Target, a: Assessment)
    requires t.groups != []
  {
    && 0.0 <= a.coverage <= 1.0
    && (a.substitute ==> a.coverage == 0.5)
    && (!a.substitute ==> a.coverage * |t.groups| as real == a.matched as real)
  }

  lemma CreditIsOk(lex: Lexicon, t: Target, c: Chunk, passage: string)
    requires t.groups != []
    ensures CreditOk(t, Credit(lex, t, c, passage))
  {
    CountWhole(t.groups, GroupMatch(lex, passage));
    Ratio(Count(t.groups, GroupMatch(lex, passage)), |t.groups|);
  }

  lemma Ratio(m: nat, n: nat)
    requires 0 < n && m <= n
    ensures 0.0 <= m as real / n as real <= 1.0 && (m as real / n as real) * n as real == m as real
  {
  }

  lemma {:induction false} PassageCreditsOk(lex: Lexicon, t: Target, c: Chunk, passages: seq<string>)
    requires t.groups != []
    ensures forall a :: a in PassageCredits(lex, t, c, passages) ==> CreditOk(t, a)
  {
    if passages != [] {
      PassageCreditsOk(lex, t, c, passages[..|passages| - 1]);
      CreditIsOk(lex, t, c, passages[|passages| - 1]);
    }
  }

  lemma {:induction false} CreditsOk(lex: Lexicon, t: Target, chunks: seq<Chunk>)
    requires t.groups != []
    ensures forall a :: a in Credits(lex, t, chunks) ==> CreditOk(t, a)
  {
    if chunks != [] {
      CreditsOk(lex, t, chunks[..|chunks| - 1]);
      PassageCreditsOk(lex, t, chunks[|chunks| - 1], lex.split(chunks[|chunks| - 1].text));
    }
  }

  /** The best credit is the greatest, and is one of the credits unless all are worth nothing. */
  lemma {:induction false} BestIsGreatest(credits: seq<Assessment>)
    ensures forall a :: a in credits ==> a.coverage <= Best(credits).coverage
    ensures Best(credits) == MISSING || (Best(credits) in credits && Best(credits).coverage > 0.0)
    ensures 0.0 <= Best(credits).coverage
  {
    if credits != [] {
      var n := |credits| - 1;
      BestIsGreatest(credits[..n]);
      assert credits == credits[..n] + [credits[n]];
    }
  }

  lemma AssessOk(lex: Lexicon, t: Target, chunks: seq<Chunk>)
    requires t.groups != []
    ensures CreditOk(t, Assess(lex, t, chunks))
  {
    CreditsOk(lex, t, chunks);
    BestIsGreatest(Credits(lex, t, chunks));
  }

  // ----- coverage in terms of the passages

  /** The groups of which the passage has some term. */
  function FoundGroups(lex: Lexicon, t: Target, passage: string): set<nat> {
    set g: nat | g < |t.groups| && exists i :: 0 <= i < |t.groups[g]| && lex.matches(t.groups[g][i], passage)
  }

  lemma FoundAreCounted(lex: Lexicon, t: Target, passage: string)
    ensures Count(t.groups, GroupMatch(lex, passage)) == |FoundGroups(lex, t, passage)|
  {
    CountPlaces(t.groups, GroupMatch(lex, passage));
    assert FoundGroups(lex, t, passage) == Places(t.groups, GroupMatch(lex, passage));
  }

  lemma {:induction false} PassageCreditIn(lex: Lexicon, t: Target, c: Chunk, passages: seq<string>, k: nat)
    requires t.groups != [] && k < |passages| && Usable(lex, t, c.category, passages[k])
    ensures Credit(lex, t, c, passages[k]) in PassageCredits(lex, t, c, passages)
  {
    if k < |passages| - 1 {
      PassageCreditIn(lex, t, c, passages[..|passages| - 1], k);
    }
  }

  lemma {:induction false} CreditIn(lex: Lexicon, t: Target, chunks: seq<Chunk>, c: Chunk, k: nat)
    requires t.groups != [] && c in chunks && k < |lex.split(c.text)|
    requires Usable(lex, t, c.category, lex.split(c.text)[k])
    ensures Credit(lex, t, c, lex.split(c.text)[k]) in Credits(lex, t, chunks)
  {
    var n := |chunks| - 1;
    assert chunks == chunks[..n] + [chunks[n]];
    if c == chunks[n] {
      PassageCreditIn(lex, t, c, lex.split(c.text), k);
    } else {
      CreditIn(lex, t, chunks[..n], c, k);
    }
  }

  lemma {:induction false} PassageCreditFrom(lex: Lexicon, t: Target, c: Chunk, passages: seq<string>, a: Assessment)
    returns (k: nat)
    requires t.groups != [] && a in PassageCredits(lex, t, c, passages)
    ensures k < |passages| && Usable(lex, t, c.category, passages[k]) && a == Credit(lex, t, c, passages[k])
  {
    var n: nat := |passages| - 1;
    if Usable(lex, t, c.category, passages[n]) && a == Credit(lex, t, c, passages[n]) {
      k := n;
    } else {
      k := PassageCreditFrom(lex, t, c, passages[..n], a);
    }
  }

  lemma {:induction false} CreditFrom(lex: Lexicon, t: Target, chunks: seq<Chunk>, a: Assessment) returns (c: Chunk, k: nat)
    requires t.groups != [] && a in Credits(lex, t, chunks)
    ensures c in chunks && k < |lex.split(c.text)|
    ensures Usable(lex, t, c.category, lex.split(c.text)[k]) && a == Credit(lex, t, c, lex.split(c.text)[k])
  {
    var n := |chunks| - 1;
    var front, last := chunks[..n], chunks[n];
    if a in Credits(lex, t, front) {
      c, k := CreditFrom(lex, t, front, a);
    } else {
      c := last;
      k := PassageCreditFrom(lex, t, last, lex.split(last.text), a);
    }
  }

  /**
   * Every passage without a negation counts, for an applied target if it describes an action in an applied
   * section: the coverage is at least the share of the groups the passage has, and at least a half when it has
   * none but a substitute.
   */
  lemma PassageCounts(lex: Lexicon, t: Target, chunks: seq<Chunk>, c: Chunk, k: nat)
    requires t.groups != [] && c in chunks && k < |lex.split(c.text)|
    requires !lex.negated(lex.split(c.text)[k])
    requires t.kind.ExperienceKind? || t.kind.ResponsibilityKind? || t.kind.ProjectKind? ==>
               (c.category.Experience? || c.category.Projects?) && lex.acts(lex.split(c.text)[k])
    ensures var passage, coverage := lex.split(c.text)[k], Assess(lex, t, chunks).coverage;
      var found := FoundGroups(lex, t, passage);
      && coverage >= |found| as real / |t.groups| as real
      && (found == {} && (exists i :: 0 <= i < |t.substitutes| && lex.matches(t.substitutes[i], passage)) ==>
            coverage >= 0.5)
  {
    CreditIn(lex, t, chunks, c, k);
    BestIsGreatest(Credits(lex, t, chunks));
    FoundAreCounted(lex, t, lex.split(c.text)[k]);
    var zero := 0.0 / |t.groups| as real;
    assert zero == 0.0;
  }

  /** And a coverage above zero is exactly what some such passage is worth; it is the one cited. */
  lemma CoverageHasPassage(lex: Lexicon, t: Target, chunks: seq<Chunk>) returns (c: Chunk, k: nat)
    requires t.groups != [] && Assess(lex, t, chunks).coverage > 0.0
    ensures c in chunks && k < |lex.split(c.text)| && !lex.negated(lex.split(c.text)[k])
    ensures t.kind.ExperienceKind? || t.kind.ResponsibilityKind? || t.kind.ProjectKind? ==>
              (c.category.Experience? || c.category.Projects?) && lex.acts(lex.split(c.text)[k])
    ensures var passage, a := lex.split(c.text)[k], Assess(lex, t, chunks);
      var found := FoundGroups(lex, t, passage);
      && a.chunk == Some(c.id) && a.passage == passage && a.matched == |found|
      && (a.substitute <==> found == {})
      && (found != {} ==> a.coverage == |found| as real / |t.groups| as real)
      && (found == {} ==>
            a.coverage == 0.5 && exists i :: 0 <= i < |t.substitutes| && lex.matches(t.substitutes[i], passage))
  {
    var a := Assess(lex, t, chunks);
    BestIsGreatest(Credits(lex, t, chunks));
    c, k := CreditFrom(lex, t, chunks, a);
    FoundAreCounted(lex, t, lex.split(c.text)[k]);
    var zero := 0.0 / |t.groups| as real;
    assert zero == 0.0;
  }

  // ----- more evidence never hurts

  lemma {:induction false} BestAppend(a: seq<Assessment>, b: seq<Assessment>)
    ensures Best(a).coverage <= Best(a + b).coverage
    ensures Best(b).coverage <= Best(a + b).coverage
    ensures Best(a + b).coverage == Best(a).coverage ==> Best(a + b) == Best(a)
    ensures Best(a + b) == Best(a) || Best(a + b) == Best(b)
  {
    if b == [] {
      assert a + b == a;
      BestIsGreatest(a);
    } else {
      assert (a + b)[..|a + b| - 1] == a + b[..|b| - 1];
      BestAppend(a, b[..|b| - 1]);
    }
  }

  lemma {:induction false} CreditsAppend(lex: Lexicon, t: Target, a: seq<Chunk>, b: seq<Chunk>)
    requires t.groups != []
    ensures Credits(lex, t, a + b) == Credits(lex, t, a) + Credits(lex, t, b)
  {
    if b == [] {
      assert a + b == a;
    } else {
      assert (a + b)[..|a + b| - 1] == a + b[..|b| - 1];
      CreditsAppend(lex, t, a, b[..|b| - 1]);
    }
  }

  /** Appending passages never lowers a target's coverage; the best stays unless it is beaten. */
  lemma CoverageGrows(lex: Lexicon, t: Target, chunks: seq<Chunk>, more: seq<Chunk>)
    requires t.groups != []
    ensures Assess(lex, t, chunks).coverage <= Assess(lex, t, chunks + more).coverage
    ensures Assess(lex, t, chunks + more).coverage == Assess(lex, t, chunks).coverage ==>
              Assess(lex, t, chunks + more) == Assess(lex, t, chunks)
  {
    CreditsAppend(lex, t, chunks, more);
    BestAppend(Credits(lex, t, chunks), Credits(lex, t, more));
  }

  /** The coverage of a list of chunks is that of its best chunk alone. */
  lemma {:induction false} CoverageByChunk(lex: Lexicon, t: Target, chunks: seq<Chunk>)
    requires t.groups != []
    ensures forall c :: c in chunks ==> Assess(lex, t, [c]).coverage <= Assess(lex, t, chunks).coverage
    ensures Assess(lex, t, chunks).coverage == 0.0
            || exists c :: c in chunks && Assess(lex, t, [c]).coverage == Assess(lex, t, chunks).coverage
  {
    if chunks != [] {
      var front, last := chunks[..|chunks| - 1], chunks[|chunks| - 1];
      assert chunks == front + [last];
      CoverageByChunk(lex, t, front);
      CreditsAppend(lex, t, front, [last]);
      BestAppend(Credits(lex, t, front), Credits(lex, t, [last]));
      BestIsGreatest(Credits(lex, t, chunks));
      assert last in chunks;
      assert forall c :: c in front ==> c in chunks;
    }
  }

  // ----- support of applied targets

  /** Direct evidence, an accepted substitute, or two concepts covering half of a bundled target. */
  predicate Supported(a: Assessment) {
    Direct(a) || a.substitute || (a.coverage >= 0.5 && a.matched >= 2)
  }

  /** With one more than half covered a target is supported, whichever passage did it. */
  lemma AboveHalf(t: Target, a: Assessment)
    requires t.groups != [] && CreditOk(t, a)
    ensures a.coverage > 0.5 ==> Supported(a)
    ensures a.coverage < 0.5 ==> !Supported(a)
    ensures a.coverage == 0.5 ==> (Supported(a) <==> a.substitute || |t.groups| != 2)
  {
    var n := |t.groups|;
    if !a.substitute {
      assert a.coverage * n as real == a.matched as real;
      HalfOf(a.coverage, a.matched, n);
    }
  }

  lemma Positive(x: real, y: real)
    requires 0.0 < x && 0.0 < y
    ensures 0.0 < x * y
  {
  }

  /** How a ratio compares with a bound is how its numerator compares. */
  lemma CompareRatio(c: real, bound: real, r: real)
    requires 0.0 < r
    ensures c > bound <==> c * r > bound * r
    ensures c == bound <==> c * r == bound * r
  {
    if c > bound {
      Positive(c - bound, r);
      assert (c - bound) * r == c * r - bound * r;
    } else if c < bound {
      Positive(bound - c, r);
      assert (bound - c) * r == bound * r - c * r;
    }
  }

  lemma SameSign(d: real, r: real)
    requires 0.0 < r
    ensures d > 0.0 <==> d * r > 0.0
    ensures d == 0.0 <==> d * r == 0.0
  {
    CompareRatio(d, 0.0, r);
  }

  lemma HalfOfReal(c: real, found: real, wanted: real)
    requires 0.0 < wanted && c * wanted == found
    ensures c > 0.5 <==> 2.0 * found > wanted
    ensures c == 0.5 <==> 2.0 * found == wanted
    ensures c == 1.0 <==> found == wanted
  {
    var d := 2.0 * c - 1.0;
    assert d * wanted == 2.0 * (c * wanted) - wanted;
    SameSign(d, wanted);
    assert (c - 1.0) * wanted == c * wanted - wanted;
    SameSign(c - 1.0, wanted);
  }

  lemma HalfOf(c: real, m: nat, n: nat)
    requires 0 < n && c * n as real == m as real
    ensures c > 0.5 <==> 2 * m > n
    ensures c == 0.5 <==> 2 * m == n
    ensures c == 1.0 <==> m == n
  {
    HalfOfReal(c, m as real, n as real);
    assert (2 * m) as real == 2.0 * m as real;
  }

  /** Substitutes stand only beside a single group; targets are resolved that way. */
  predicate Resolved(t: Target) {
    t.substitutes == [] || |t.groups| == 1
  }

  /** Half coverage supports a target unless it is one of two groups. */
  predicate SupportedBy(t: Target, coverage: real) {
    if |t.groups| == 2 then coverage > 0.5 else coverage >= 0.5
  }

  lemma {:induction false} NoSubstituteIn(lex: Lexicon, t: Target, c: Chunk, passages: seq<string>)
    requires t.groups != [] && t.substitutes == []
    ensures forall a :: a in PassageCredits(lex, t, c, passages) ==> !a.substitute
  {
    if passages != [] {
      NoSubstituteIn(lex, t, c, passages[..|passages| - 1]);
    }
  }

  lemma {:induction false} NoSubstitute(lex: Lexicon, t: Target, chunks: seq<Chunk>)
    requires t.groups != [] && t.substitutes == []
    ensures forall a :: a in Credits(lex, t, chunks) ==> !a.substitute
  {
    if chunks != [] {
      var last := chunks[|chunks| - 1];
      NoSubstitute(lex, t, chunks[..|chunks| - 1]);
      NoSubstituteIn(lex, t, last, lex.split(last.text));
    }
  }

  /** Whether a target is supported depends on its coverage alone, whichever passage was the best. */
  lemma SupportIsCoverage(lex: Lexicon, t: Target, chunks: seq<Chunk>)
    requires t.groups != [] && Resolved(t)
    ensures var a := Assess(lex, t, chunks); Supported(a) <==> SupportedBy(t, a.coverage)
  {
    var a := Assess(lex, t, chunks);
    AssessOk(lex, t, chunks);
    AboveHalf(t, a);
    if t.substitutes == [] {
      NoSubstitute(lex, t, chunks);
      BestIsGreatest(Credits(lex, t, chunks));
    }
  }

  /** More passages never take support away, though the best may turn from a substitute to direct. */
  lemma SupportGrows(lex: Lexicon, t: Target, chunks: seq<Chunk>, more: seq<Chunk>)
    requires t.groups != [] && Supported(Assess(lex, t, chunks))
    ensures Supported(Assess(lex, t, chunks + more))
  {
    CoverageGrows(lex, t, chunks, more);
    AssessOk(lex, t, chunks);
    AssessOk(lex, t, chunks + more);
    AboveHalf(t, Assess(lex, t, chunks));
    AboveHalf(t, Assess(lex, t, chunks + more));
  }
}
