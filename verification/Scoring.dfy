/** Category scores, the composite score and shortlist eligibility, from the coverage of each target. */
module Scoring {
  import opened Prelude
  import opened Coverage

  const CATEGORIES: seq<Category> := [Skills, Experience, Projects, Education]

  datatype Policy = Policy(weights: Category -> real, minimum: real, production: bool)

  ghost predicate ValidPolicy(policy: Policy) {
    forall c: Category :: 0.0 <= policy.weights(c)
  }

  ghost predicate ValidTargets(targets: seq<Target>) {
    forall i :: 0 <= i < |targets| ==> ValidTarget(targets[i])
  }

  datatype Scored = Scored(
    categories: map<Category, Option<real>>,
    composite: real,
    eligible: bool,
    supported: nat,
    responsibility: real,
    applied: real)

  function MinReal(a: real, b: real): real {
    if a <= b then a else b
  }

  // ----- selections of targets

  function Main(c: Category): Target -> bool {
    (t: Target) => t.category == c && !t.preference
  }

  function Preferred(c: Category): Target -> bool {
    (t: Target) => t.category == c && t.preference
  }

  function Scores(): Target -> bool {
    (t: Target) => !t.preference
  }

  function OfKinds(responsibility: bool): Target -> bool {
    (t: Target) => if responsibility then t.kind.ResponsibilityKind? else t.kind.ExperienceKind? || t.kind.ProjectKind?
  }

  function AppliedMain(): Target -> bool {
    (t: Target) => Applied(t.kind) && !t.preference
  }

  // ----- sums over the selected targets

  function Importance(ts: seq<Target>, p: Target -> bool): real {
    if ts == [] then 0.0
    else Importance(ts[..|ts| - 1], p) + (if p(ts[|ts| - 1]) then ts[|ts| - 1].importance else 0.0)
  }

  function Weighted(ts: seq<Target>, cov: seq<real>, p: Target -> bool): real
    requires |cov| == |ts|
  {
    if ts == [] then 0.0
    else
      var n := |ts| - 1;
      Weighted(ts[..n], cov[..n], p) + (if p(ts[n]) then ts[n].importance * cov[n] else 0.0)
  }

  function Plain(ts: seq<Target>, cov: seq<real>, p: Target -> bool): real
    requires |cov| == |ts|
  {
    if ts == [] then 0.0
    else
      var n := |ts| - 1;
      Plain(ts[..n], cov[..n], p) + (if p(ts[n]) then cov[n] else 0.0)
  }

  function Covered(ts: seq<Target>, cov: seq<real>, p: Target -> bool): nat
    requires |cov| == |ts|
  {
    if ts == [] then 0
    else
      var n := |ts| - 1;
      Covered(ts[..n], cov[..n], p) + (if p(ts[n]) && cov[n] > 0.0 then 1 else 0)
  }

  /** The importance-weighted mean coverage of the selected targets, zero when there are none. */
  function Average(ts: seq<Target>, cov: seq<real>, p: Target -> bool): real
    requires |cov| == |ts|
  {
    if Importance(ts, p) == 0.0 then 0.0 else Weighted(ts, cov, p) / Importance(ts, p)
  }

  /** Preferences add at most a tenth and cannot make a category count on their own. */
  function CategoryScore(ts: seq<Target>, cov: seq<real>, c: Category): Option<real>
    requires |cov| == |ts|
  {
    if Count(ts, Main(c)) == 0 then None
    else if Count(ts, Preferred(c)) == 0 then Some(Average(ts, cov, Main(c)))
    else Some(MinReal(1.0, Average(ts, cov, Main(c)) + 0.1 * Average(ts, cov, Preferred(c))))
  }

  function ActiveWeight(ts: seq<Target>, policy: Policy, c: Category): real {
    if Count(ts, Main(c)) == 0 then 0.0 else policy.weights(c)
  }

  function TotalWeight(ts: seq<Target>, policy: Policy, cs: seq<Category>): real {
    if cs == [] then 0.0 else TotalWeight(ts, policy, cs[..|cs| - 1]) + ActiveWeight(ts, policy, cs[|cs| - 1])
  }

  function Part(ts: seq<Target>, cov: seq<real>, policy: Policy, c: Category): real
    requires |cov| == |ts|
  {
    match CategoryScore(ts, cov, c)
    case None => 0.0
    case Some(s) => policy.weights(c) * s
  }

  function WeightedParts(ts: seq<Target>, cov: seq<real>, policy: Policy, cs: seq<Category>): real
    requires |cov| == |ts|
  {
    if cs == [] then 0.0
    else WeightedParts(ts, cov, policy, cs[..|cs| - 1]) + Part(ts, cov, policy, cs[|cs| - 1])
  }

  function Composite(ts: seq<Target>, cov: seq<real>, policy: Policy): real
    requires |cov| == |ts|
  {
    var total := TotalWeight(ts, policy, CATEGORIES);
    if total == 0.0 then 0.0 else WeightedParts(ts, cov, policy, CATEGORIES) / total
  }

  // ----- assessments and eligibility

  function Assessments(lex: Lexicon, ts: seq<Target>, evidence: Category -> seq<Chunk>): (r: seq<Assessment>)
    requires forall i :: 0 <= i < |ts| ==> ts[i].groups != []
    ensures |r| == |ts|
    ensures forall i :: 0 <= i < |ts| ==> r[i] == Assess(lex, ts[i], evidence(ts[i].category))
  {
    seq(|ts|, i requires 0 <= i < |ts| => Assess(lex, ts[i], evidence(ts[i].category)))
  }

  function Coverages(rs: seq<Assessment>): (cov: seq<real>)
    ensures |cov| == |rs| && forall i :: 0 <= i < |rs| ==> cov[i] == rs[i].coverage
  {
    seq(|rs|, i requires 0 <= i < |rs| => rs[i].coverage)
  }

  /** Some applied requirement is supported, or there is none. */
  predicate AppliedSupported(ts: seq<Target>, rs: seq<Assessment>)
    requires |rs| == |ts|
  {
    (forall i :: 0 <= i < |ts| ==> !AppliedMain()(ts[i]))
    || (exists i :: 0 <= i < |ts| && AppliedMain()(ts[i]) && Supported(rs[i]))
  }

  predicate NeedsSourceReview(ts: seq<Target>) {
    forall i :: 0 <= i < |ts| ==> !ts[i].approved
  }

  predicate Eligible(ts: seq<Target>, rs: seq<Assessment>, policy: Policy)
    requires |rs| == |ts|
  {
    var cov := Coverages(rs);
    var score := Composite(ts, cov, policy);
    && Covered(ts, cov, Scores()) > 0 && AppliedSupported(ts, rs) && score > 0.0 && score >= policy.minimum
    && !(policy.production && NeedsSourceReview(ts))
  }

  function CategoryMap(ts: seq<Target>, cov: seq<real>): map<Category, Option<real>>
    requires |cov| == |ts|
  {
    map c: Category | c in CATEGORIES :: CategoryScore(ts, cov, c)
  }

  function Score(ts: seq<Target>, rs: seq<Assessment>, policy: Policy): Scored
    requires |rs| == |ts|
  {
    var cov := Coverages(rs);
    Scored(CategoryMap(ts, cov), Composite(ts, cov, policy), Eligible(ts, rs, policy), Covered(ts, cov, Scores()),
           Plain(ts, cov, OfKinds(true)), Plain(ts, cov, OfKinds(false)))
  }

  // ----- the loops

  method AverageOf(ts: seq<Target>, cov: seq<real>, p: Target -> bool) returns (average: real)
    requires |cov| == |ts|
    ensures average == Average(ts, cov, p)
  {
    var weighted, importance := 0.0, 0.0;
    var i := 0;
    while i < |ts|
      invariant 0 <= i <= |ts|
      invariant weighted == Weighted(ts[..i], cov[..i], p) && importance == Importance(ts[..i], p)
    {
      assert ts[..i + 1][..i] == ts[..i] && cov[..i + 1][..i] == cov[..i];
      if p(ts[i]) {
        weighted, importance := weighted + ts[i].importance * cov[i], importance + ts[i].importance;
      }
      i := i + 1;
    }
    assert ts[..i] == ts && cov[..i] == cov;
    average := if importance == 0.0 then 0.0 else weighted / importance;
  }

  method AnyTarget(ts: seq<Target>, p: Target -> bool) returns (found: bool)
    ensures found <==> Count(ts, p) > 0
    ensures found <==> exists i :: 0 <= i < |ts| && p(ts[i])
  {
    CountPositive(ts, p);
    found := exists i :: 0 <= i < |ts| && p(ts[i]);
  }

  method ScoreCategory(ts: seq<Target>, cov: seq<real>, c: Category) returns (score: Option<real>)
    requires |cov| == |ts|
    ensures score == CategoryScore(ts, cov, c)
  {
    var main := AnyTarget(ts, Main(c));
    if !main {
      return None;
    }
    var mean := AverageOf(ts, cov, Main(c));
    var prefs := AnyTarget(ts, Preferred(c));
    if !prefs {
      return Some(mean);
    }
    var extra := AverageOf(ts, cov, Preferred(c));
    return Some(MinReal(1.0, mean + 0.1 * extra));
  }

  method AssessAll(lex: Lexicon, ts: seq<Target>, evidence: Category -> seq<Chunk>) returns (assessments: seq<Assessment>)
    requires ValidTargets(ts)
    ensures assessments == Assessments(lex, ts, evidence)
  {
    assessments := [];
    var i := 0;
    while i < |ts|
      invariant 0 <= i <= |ts| && |assessments| == i
      invariant forall k :: 0 <= k < i ==> assessments[k] == Assess(lex, ts[k], evidence(ts[k].category))
    {
      var a := AssessTarget(lex, ts[i], evidence(ts[i].category));
      assessments := assessments + [a];
      i := i + 1;
    }
  }

  /** Fill the category scores and the active weights, one category after the other. */
  method FillCategories(ts: seq<Target>, cov: seq<real>, policy: Policy)
    returns (categories: map<Category, Option<real>>, total: real, sum: real)
    requires |cov| == |ts|
    ensures categories == CategoryMap(ts, cov)
    ensures total == TotalWeight(ts, policy, CATEGORIES) && sum == WeightedParts(ts, cov, policy, CATEGORIES)
  {
    categories, total, sum := map[], 0.0, 0.0;
    var order := CATEGORIES;
    var k := 0;
    while k < |order|
      invariant 0 <= k <= |order|
      invariant categories == map c: Category | c in order[..k] :: CategoryScore(ts, cov, c)
      invariant total == TotalWeight(ts, policy, order[..k]) && sum == WeightedParts(ts, cov, policy, order[..k])
    {
      var c := order[k];
      assert order[..k + 1] == order[..k] + [c];
      assert order[..k + 1][..k] == order[..k];
      var score := ScoreCategory(ts, cov, c);
      categories := categories[c := score];
      if score.Some? {
        total, sum := total + policy.weights(c), sum + policy.weights(c) * score.value;
      }
      k := k + 1;
    }
    assert order[..k] == order;
  }

  lemma {:induction false} CoveredSome(ts: seq<Target>, cov: seq<real>)
    requires |cov| == |ts|
    ensures Covered(ts, cov, Scores()) > 0 <==> exists i :: 0 <= i < |ts| && !ts[i].preference && cov[i] > 0.0
  {
    if ts != [] {
      var n := |ts| - 1;
      CoveredSome(ts[..n], cov[..n]);
      if i :| 0 <= i < n && !ts[..n][i].preference && cov[..n][i] > 0.0 {
        assert !ts[i].preference && cov[i] > 0.0;
      }
      if i :| 0 <= i < |ts| && !ts[i].preference && cov[i] > 0.0 {
        assert i < n ==> !ts[..n][i].preference && cov[..n][i] > 0.0;
      }
    }
  }

  /** Assess every target, score the categories, and weigh the active ones. */
  method ScoreCoverage(lex: Lexicon, ts: seq<Target>, evidence: Category -> seq<Chunk>, policy: Policy)
    returns (scored: Scored)
    requires ValidTargets(ts)
    ensures scored == Score(ts, Assessments(lex, ts, evidence), policy)
    ensures scored.eligible <==>
      && scored.composite > 0.0 && scored.composite >= policy.minimum
      && (exists i :: 0 <= i < |ts| && !ts[i].preference && Assess(lex, ts[i], evidence(ts[i].category)).coverage > 0.0)
      && (|| (forall i :: 0 <= i < |ts| && !ts[i].preference ==>
                ts[i].kind.SkillKind? || ts[i].kind.DomainKind? || ts[i].kind.EducationKind?)
          || (exists i :: 0 <= i < |ts| && !ts[i].preference
                          && (ts[i].kind.ResponsibilityKind? || ts[i].kind.ExperienceKind? || ts[i].kind.ProjectKind?)
                          && var a := Assess(lex, ts[i], evidence(ts[i].category));
                          a.substitute || a.coverage == 1.0 || (a.coverage >= 0.5 && a.matched >= 2)))
      && (policy.production ==> exists i :: 0 <= i < |ts| && ts[i].approved)
  {
    var assessments := AssessAll(lex, ts, evidence);
    var cov := Coverages(assessments);
    CoveredSome(ts, cov);
    var categories, total, sum := FillCategories(ts, cov, policy);
    var composite := if total == 0.0 then 0.0 else sum / total;
    var supported := Covered(ts, cov, Scores());
    var eligible := supported > 0 && AppliedSupported(ts, assessments) && composite > 0.0
                    && composite >= policy.minimum;
    if policy.production && NeedsSourceReview(ts) {
      eligible := false;
    }
    scored := Scored(categories, composite, eligible, supported,
                     Plain(ts, cov, OfKinds(true)), Plain(ts, cov, OfKinds(false)));
  }

  // ----- what the scores are

  /** How far the requirements, or the preferences, of a category lie above `m` on the whole, by importance. */
  function Excess(ts: seq<Target>, cov: seq<real>, c: Category, preference: bool, m: real): real
    requires |cov| == |ts|
  {
    if ts == [] then 0.0
    else
      var n := |ts| - 1;
      Excess(ts[..n], cov[..n], c, preference, m)
      + (if ts[n].category == c && ts[n].preference == preference then ts[n].importance * (cov[n] - m) else 0.0)
  }

  ghost predicate Balances(excess: real, weighted: real, importance: real, m: real) {
    excess == weighted - importance * m
  }

  lemma Together(e: real, w: real, i: real, e': real, w': real, i': real, m: real)
    requires Balances(e, w, i, m) && Balances(e', w', i', m)
    ensures Balances(e + e', w + w', i + i', m)
  {
    assert (i + i') * m == i * m + i' * m;
  }

  lemma OneTarget(importance: real, x: real, m: real)
    ensures Balances(importance * (x - m), importance * x, importance, m)
  {
  }

  /** What the last target adds to the excess, the weighted coverage and the importance. */
  lemma NextExcess(ts: seq<Target>, cov: seq<real>, c: Category, preference: bool, p: Target -> bool, m: real)
    returns (e: real, w: real, i: real)
    requires |cov| == |ts| && ts != [] && p == if preference then Preferred(c) else Main(c)
    ensures var n := |ts| - 1;
      && Excess(ts, cov, c, preference, m) == Excess(ts[..n], cov[..n], c, preference, m) + e
      && Weighted(ts, cov, p) == Weighted(ts[..n], cov[..n], p) + w
      && Importance(ts, p) == Importance(ts[..n], p) + i
      && Balances(e, w, i, m)
  {
    var n := |ts| - 1;
    if p(ts[n]) {
      OneTarget(ts[n].importance, cov[n], m);
      e, w, i := ts[n].importance * (cov[n] - m), ts[n].importance * cov[n], ts[n].importance;
    } else {
      e, w, i := 0.0, 0.0, 0.0;
    }
  }

  lemma {:induction false} ExcessIs(ts: seq<Target>, cov: seq<real>, c: Category, preference: bool, p: Target -> bool, m: real)
    requires |cov| == |ts| && p == if preference then Preferred(c) else Main(c)
    ensures Balances(Excess(ts, cov, c, preference, m), Weighted(ts, cov, p), Importance(ts, p), m)
  {
    if ts != [] {
      var n := |ts| - 1;
      ExcessIs(ts[..n], cov[..n], c, preference, p, m);
      var e, w, i := NextExcess(ts, cov, c, preference, p, m);
      Together(Excess(ts[..n], cov[..n], c, preference, m), Weighted(ts[..n], cov[..n], p), Importance(ts[..n], p), e, w, i, m);
    }
  }

  lemma {:induction false} SomeImportance(ts: seq<Target>, p: Target -> bool)
    requires ValidTargets(ts)
    ensures 0.0 <= Importance(ts, p) && (Importance(ts, p) > 0.0 <==> Count(ts, p) > 0)
  {
    if ts != [] {
      SomeImportance(ts[..|ts| - 1], p);
    }
  }

  lemma AverageBalances(ts: seq<Target>, cov: seq<real>, c: Category, preference: bool)
    requires ValidTargets(ts) && |cov| == |ts|
    ensures var m := Average(ts, cov, if preference then Preferred(c) else Main(c));
      Excess(ts, cov, c, preference, m) == 0.0
  {
    var p := if preference then Preferred(c) else Main(c);
    var m := Average(ts, cov, p);
    ExcessIs(ts, cov, c, preference, p, m);
    SomeImportance(ts, p);
    if Importance(ts, p) == 0.0 {
      NoneWeigh(ts, cov, p);
    }
  }

  lemma {:induction false} NoneWeigh(ts: seq<Target>, cov: seq<real>, p: Target -> bool)
    requires ValidTargets(ts) && |cov| == |ts| && Importance(ts, p) == 0.0
    ensures Weighted(ts, cov, p) == 0.0
  {
    if ts != [] {
      SomeImportance(ts[..|ts| - 1], p);
      NoneWeigh(ts[..|ts| - 1], cov[..|ts| - 1], p);
    }
  }

  /**
   * A category counts when it has a requirement. Its score is then the mean coverage of its requirements by
   * importance, the value above which they lie by nothing, plus a tenth of that of its preferences, and at most 1.
   */
  lemma CategoryScoreIs(ts: seq<Target>, cov: seq<real>, c: Category)
    requires ValidTargets(ts) && |cov| == |ts|
    ensures CategoryScore(ts, cov, c).Some? <==> exists i :: 0 <= i < |ts| && ts[i].category == c && !ts[i].preference
    ensures CategoryScore(ts, cov, c).Some? ==>
      exists m, e ::
        && Excess(ts, cov, c, false, m) == 0.0 && Excess(ts, cov, c, true, e) == 0.0
        && if forall i :: 0 <= i < |ts| && ts[i].category == c ==> !ts[i].preference
           then CategoryScore(ts, cov, c).value == m
           else CategoryScore(ts, cov, c).value == if m + e / 10.0 <= 1.0 then m + e / 10.0 else 1.0
  {
    var m, e := Average(ts, cov, Main(c)), Average(ts, cov, Preferred(c));
    AverageBalances(ts, cov, c, false);
    AverageBalances(ts, cov, c, true);
    CountPositive(ts, Main(c));
    CountPositive(ts, Preferred(c));
    assert 0.1 * e == e / 10.0;
    assert Excess(ts, cov, c, false, m) == 0.0 && Excess(ts, cov, c, true, e) == 0.0;
  }

  /** The coverage of all targets of some kinds together. */
  function CoverageOf(ts: seq<Target>, cov: seq<real>, kinds: set<Kind>): real
    requires |cov| == |ts|
  {
    if ts == [] then 0.0
    else
      var n := |ts| - 1;
      CoverageOf(ts[..n], cov[..n], kinds) + (if ts[n].kind in kinds then cov[n] else 0.0)
  }

  lemma {:induction false} PlainIs(ts: seq<Target>, cov: seq<real>)
    requires |cov| == |ts|
    ensures Plain(ts, cov, OfKinds(true)) == CoverageOf(ts, cov, {ResponsibilityKind})
    ensures Plain(ts, cov, OfKinds(false)) == CoverageOf(ts, cov, {ExperienceKind, ProjectKind})
  {
    if ts != [] {
      PlainIs(ts[..|ts| - 1], cov[..|ts| - 1]);
    }
  }

  function SupportedPlaces(ts: seq<Target>, cov: seq<real>): set<nat>
    requires |cov| == |ts|
  {
    set i: nat | i < |ts| && !ts[i].preference && cov[i] > 0.0
  }

  lemma {:induction false} CoveredPlaces(ts: seq<Target>, cov: seq<real>)
    requires |cov| == |ts|
    ensures Covered(ts, cov, Scores()) == |SupportedPlaces(ts, cov)|
  {
    if ts == [] {
      assert SupportedPlaces(ts, cov) == {};
    } else {
      var n: nat := |ts| - 1;
      CoveredPlaces(ts[..n], cov[..n]);
      if !ts[n].preference && cov[n] > 0.0 {
        assert SupportedPlaces(ts, cov) == SupportedPlaces(ts[..n], cov[..n]) + {n};
      } else {
        assert SupportedPlaces(ts, cov) == SupportedPlaces(ts[..n], cov[..n]);
      }
    }
  }

  /** The figures that break ties, and the number of requirements with any evidence. */
  lemma TieBreakersAre(ts: seq<Target>, rs: seq<Assessment>, policy: Policy)
    requires |rs| == |ts|
    ensures var scored, cov := Score(ts, rs, policy), Coverages(rs);
      && scored.responsibility == CoverageOf(ts, cov, {ResponsibilityKind})
      && scored.applied == CoverageOf(ts, cov, {ExperienceKind, ProjectKind})
      && scored.supported == |SupportedPlaces(ts, cov)|
  {
    PlainIs(ts, Coverages(rs));
    CoveredPlaces(ts, Coverages(rs));
  }

  /** The weight of a category that counts. */
  function CountedWeight(scored: Scored, policy: Policy, c: Category): real {
    if c in scored.categories && scored.categories[c].Some? then policy.weights(c) else 0.0
  }

  function CountedPart(scored: Scored, policy: Policy, c: Category): real {
    if c in scored.categories && scored.categories[c].Some? then policy.weights(c) * scored.categories[c].value else 0.0
  }

  lemma FourCategories(ts: seq<Target>, cov: seq<real>, policy: Policy)
    requires |cov| == |ts|
    ensures TotalWeight(ts, policy, CATEGORIES)
         == ActiveWeight(ts, policy, Skills) + ActiveWeight(ts, policy, Experience)
            + ActiveWeight(ts, policy, Projects) + ActiveWeight(ts, policy, Education)
    ensures WeightedParts(ts, cov, policy, CATEGORIES)
         == Part(ts, cov, policy, Skills) + Part(ts, cov, policy, Experience)
            + Part(ts, cov, policy, Projects) + Part(ts, cov, policy, Education)
  {
    var order := CATEGORIES;
    NextCategory(ts, cov, policy, order, 0);
    NextCategory(ts, cov, policy, order, 1);
    NextCategory(ts, cov, policy, order, 2);
    NextCategory(ts, cov, policy, order, 3);
    assert order[..4] == order && order[..0] == [];
  }

  lemma NextCategory(ts: seq<Target>, cov: seq<real>, policy: Policy, cs: seq<Category>, k: nat)
    requires |cov| == |ts| && k < |cs|
    ensures TotalWeight(ts, policy, cs[..k + 1]) == TotalWeight(ts, policy, cs[..k]) + ActiveWeight(ts, policy, cs[k])
    ensures WeightedParts(ts, cov, policy, cs[..k + 1]) == WeightedParts(ts, cov, policy, cs[..k]) + Part(ts, cov, policy, cs[k])
  {
    assert cs[..k + 1][..k] == cs[..k];
  }

  function CountedTotal(scored: Scored, policy: Policy): real {
    CountedWeight(scored, policy, Skills) + CountedWeight(scored, policy, Experience)
    + CountedWeight(scored, policy, Projects) + CountedWeight(scored, policy, Education)
  }

  function CountedSum(scored: Scored, policy: Policy): real {
    CountedPart(scored, policy, Skills) + CountedPart(scored, policy, Experience)
    + CountedPart(scored, policy, Projects) + CountedPart(scored, policy, Education)
  }

  /** The mean of values that add up to `sum` under weights that add up to `total`; zero when nothing weighs. */
  ghost predicate MeanOf(mean: real, sum: real, total: real) {
    if total == 0.0 then mean == 0.0 else mean * total == sum
  }

  /** The composite score is the mean of the four category scores, those that count, by their weights. */
  lemma CompositeIs(ts: seq<Target>, rs: seq<Assessment>, policy: Policy)
    requires |rs| == |ts|
    ensures var scored := Score(ts, rs, policy);
      MeanOf(scored.composite, CountedSum(scored, policy), CountedTotal(scored, policy))
  {
    var scored := Score(ts, rs, policy);
    CountedSums(ts, rs, policy, scored);
    CompositeQuotient(ts, Coverages(rs), policy, CountedTotal(scored, policy), CountedSum(scored, policy));
  }

  lemma CompositeQuotient(ts: seq<Target>, cov: seq<real>, policy: Policy, total: real, sum: real)
    requires |cov| == |ts|
    requires total == TotalWeight(ts, policy, CATEGORIES) && sum == WeightedParts(ts, cov, policy, CATEGORIES)
    ensures MeanOf(Composite(ts, cov, policy), sum, total)
  {
  }

  lemma CountedSums(ts: seq<Target>, rs: seq<Assessment>, policy: Policy, scored: Scored)
    requires |rs| == |ts| && scored == Score(ts, rs, policy)
    ensures TotalWeight(ts, policy, CATEGORIES) == CountedTotal(scored, policy)
    ensures WeightedParts(ts, Coverages(rs), policy, CATEGORIES) == CountedSum(scored, policy)
  {
    FourCategories(ts, Coverages(rs), policy);
    CountedIs(ts, rs, policy, Skills);
    CountedIs(ts, rs, policy, Experience);
    CountedIs(ts, rs, policy, Projects);
    CountedIs(ts, rs, policy, Education);
  }

  lemma CountedIs(ts: seq<Target>, rs: seq<Assessment>, policy: Policy, c: Category)
    requires |rs| == |ts|
    ensures ActiveWeight(ts, policy, c) == CountedWeight(Score(ts, rs, policy), policy, c)
    ensures Part(ts, Coverages(rs), policy, c) == CountedPart(Score(ts, rs, policy), policy, c)
  {
    CategoryListed(c);
    assert Score(ts, rs, policy).categories[c] == CategoryScore(ts, Coverages(rs), c);
  }

  lemma CategoryListed(c: Category)
    ensures c in CATEGORIES
  {
    assert CATEGORIES[0] == Skills && CATEGORIES[1] == Experience && CATEGORIES[2] == Projects && CATEGORIES[3] == Education;
  }

  // ----- scores lie between zero and one, and grow with coverage

  /** Coverage by coverage, `b` is at least `a`, and both lie in 0..1. */
  ghost predicate Grows(a: seq<real>, b: seq<real>) {
    && |a| == |b|
    && (forall i :: 0 <= i < |a| ==> 0.0 <= a[i] <= b[i] <= 1.0)
  }

  lemma Scale(importance: real, x: real, y: real)
    requires 0.0 < importance && 0.0 <= x <= y <= 1.0
    ensures 0.0 <= importance * x <= importance * y <= importance
  {
    if x < y {
      Positive(importance, y - x);
      assert importance * (y - x) == importance * y - importance * x;
    }
    if 0.0 < x {
      Positive(importance, x);
    }
    if y < 1.0 {
      Positive(importance, 1.0 - y);
      assert importance * (1.0 - y) == importance - importance * y;
    }
  }

  lemma {:induction false} WeightedGrows(ts: seq<Target>, a: seq<real>, b: seq<real>, p: Target -> bool)
    requires ValidTargets(ts) && |a| == |ts| && Grows(a, b)
    ensures 0.0 <= Weighted(ts, a, p) <= Weighted(ts, b, p) <= Importance(ts, p)
  {
    if ts != [] {
      var n := |ts| - 1;
      WeightedGrows(ts[..n], a[..n], b[..n], p);
      var x, y := NextWeights(ts, a, b, p);
    }
  }

  lemma NextWeights(ts: seq<Target>, a: seq<real>, b: seq<real>, p: Target -> bool) returns (x: real, y: real)
    requires ValidTargets(ts) && |a| == |ts| && Grows(a, b) && ts != []
    ensures var n := |ts| - 1;
      && Weighted(ts, a, p) == Weighted(ts[..n], a[..n], p) + x
      && Weighted(ts, b, p) == Weighted(ts[..n], b[..n], p) + y
      && Importance(ts, p) == Importance(ts[..n], p) + (if p(ts[n]) then ts[n].importance else 0.0)
      && 0.0 <= x <= y <= (if p(ts[n]) then ts[n].importance else 0.0)
  {
    var n := |ts| - 1;
    if p(ts[n]) {
      x, y := ScaleWeight(ts[n].importance, a[n], b[n]);
    } else {
      x, y := 0.0, 0.0;
    }
  }

  lemma Quotients(x: real, y: real, z: real)
    requires 0.0 <= x <= y <= z && 0.0 < z
    ensures 0.0 <= x / z <= y / z <= 1.0
  {
    CompareQuotient(0.0, x, z);
    CompareQuotient(x, y, z);
    CompareQuotient(y, z, z);
  }

  lemma CompareQuotient(x: real, y: real, z: real)
    requires x <= y && 0.0 < z
    ensures x / z <= y / z
  {
    var p, q := x / z, y / z;
    assert (p - q) * z == p * z - q * z == x - y;
    if p > q {
      Positive(p - q, z);
    }
  }

  lemma AverageGrows(ts: seq<Target>, a: seq<real>, b: seq<real>, p: Target -> bool)
    requires ValidTargets(ts) && |a| == |ts| && Grows(a, b)
    ensures 0.0 <= Average(ts, a, p) <= Average(ts, b, p) <= 1.0
  {
    WeightedGrows(ts, a, b, p);
    if Importance(ts, p) != 0.0 {
      Quotients(Weighted(ts, a, p), Weighted(ts, b, p), Importance(ts, p));
    }
  }

  /** A category score lies in 0..1 and never falls when coverages rise. */
  lemma CategoryScoreGrows(ts: seq<Target>, a: seq<real>, b: seq<real>, c: Category)
    requires ValidTargets(ts) && |a| == |ts| && Grows(a, b)
    ensures CategoryScore(ts, a, c).Some? <==> CategoryScore(ts, b, c).Some?
    ensures CategoryScore(ts, a, c).Some? ==>
              0.0 <= CategoryScore(ts, a, c).value <= CategoryScore(ts, b, c).value <= 1.0
  {
    AverageGrows(ts, a, b, Main(c));
    AverageGrows(ts, a, b, Preferred(c));
  }

  lemma ScaleWeight(w: real, x: real, y: real) returns (p: real, q: real)
    requires 0.0 <= w && 0.0 <= x <= y <= 1.0
    ensures p == w * x && q == w * y && 0.0 <= p <= q <= w
  {
    p, q := w * x, w * y;
    if w > 0.0 {
      Scale(w, x, y);
    }
  }

  lemma PartGrows(ts: seq<Target>, a: seq<real>, b: seq<real>, policy: Policy, c: Category)
    requires ValidTargets(ts) && |a| == |ts| && Grows(a, b) && ValidPolicy(policy)
    ensures 0.0 <= Part(ts, a, policy, c) <= Part(ts, b, policy, c) <= ActiveWeight(ts, policy, c)
  {
    CategoryScoreGrows(ts, a, b, c);
    var w := policy.weights(c);
    if Count(ts, Main(c)) == 0 {
      assert Part(ts, a, policy, c) == 0.0 && Part(ts, b, policy, c) == 0.0 && ActiveWeight(ts, policy, c) == 0.0;
    } else {
      var s, s' := CategoryScore(ts, a, c).value, CategoryScore(ts, b, c).value;
      var p, q := ScaleWeight(w, s, s');
      assert Part(ts, a, policy, c) == p && Part(ts, b, policy, c) == q;
      assert ActiveWeight(ts, policy, c) == w;
    }
  }

  lemma {:induction false} PartsGrow(ts: seq<Target>, a: seq<real>, b: seq<real>, policy: Policy, cs: seq<Category>)
    requires ValidTargets(ts) && |a| == |ts| && Grows(a, b) && ValidPolicy(policy)
    ensures 0.0 <= WeightedParts(ts, a, policy, cs) <= WeightedParts(ts, b, policy, cs) <= TotalWeight(ts, policy, cs)
  {
    if cs != [] {
      PartsGrow(ts, a, b, policy, cs[..|cs| - 1]);
      PartGrows(ts, a, b, policy, cs[|cs| - 1]);
    }
  }

  lemma CompositeGrows(ts: seq<Target>, a: seq<real>, b: seq<real>, policy: Policy)
    requires ValidTargets(ts) && |a| == |ts| && Grows(a, b) && ValidPolicy(policy)
    ensures 0.0 <= Composite(ts, a, policy) <= Composite(ts, b, policy) <= 1.0
  {
    PartsGrow(ts, a, b, policy, CATEGORIES);
    if TotalWeight(ts, policy, CATEGORIES) != 0.0 {
      Quotients(WeightedParts(ts, a, policy, CATEGORIES), WeightedParts(ts, b, policy, CATEGORIES),
                TotalWeight(ts, policy, CATEGORIES));
    }
  }

  lemma {:induction false} CoveredGrows(ts: seq<Target>, a: seq<real>, b: seq<real>, p: Target -> bool)
    requires |a| == |ts| && Grows(a, b)
    ensures Covered(ts, a, p) <= Covered(ts, b, p)
  {
    if ts != [] {
      var n := |ts| - 1;
      CoveredGrows(ts[..n], a[..n], b[..n], p);
    }
  }

  // ----- appending evidence

  ghost predicate Appends(evidence: Category -> seq<Chunk>, evidence': Category -> seq<Chunk>) {
    forall c: Category :: evidence(c) <= evidence'(c)
  }

  lemma AssessmentsGrow(lex: Lexicon, ts: seq<Target>, evidence: Category -> seq<Chunk>, evidence': Category -> seq<Chunk>)
    requires ValidTargets(ts) && Appends(evidence, evidence')
    ensures var rs, rs' := Assessments(lex, ts, evidence), Assessments(lex, ts, evidence');
      && Grows(Coverages(rs), Coverages(rs'))
      && (AppliedSupported(ts, rs) ==> AppliedSupported(ts, rs'))
  {
    var rs, rs' := Assessments(lex, ts, evidence), Assessments(lex, ts, evidence');
    forall i | 0 <= i < |ts|
      ensures 0.0 <= rs[i].coverage <= rs'[i].coverage <= 1.0
      ensures Supported(rs[i]) ==> Supported(rs'[i])
    {
      var before, after := evidence(ts[i].category), evidence'(ts[i].category);
      var more := after[|before|..];
      assert after == before + more;
      AssessOk(lex, ts[i], before);
      AssessOk(lex, ts[i], after);
      CoverageGrows(lex, ts[i], before, more);
      if Supported(rs[i]) {
        SupportGrows(lex, ts[i], before, more);
      }
    }
  }

  /**
   * Appending passages to any category never lowers a target's coverage, a category score or the
   * composite score, all of which stay within 0..1, and never makes an eligible candidate ineligible.
   */
  lemma MoreEvidenceNeverHurts(lex: Lexicon, ts: seq<Target>, policy: Policy,
                               evidence: Category -> seq<Chunk>, evidence': Category -> seq<Chunk>)
    requires ValidTargets(ts) && ValidPolicy(policy) && Appends(evidence, evidence')
    ensures var rs, rs' := Assessments(lex, ts, evidence), Assessments(lex, ts, evidence');
      && (forall i :: 0 <= i < |ts| ==> 0.0 <= rs[i].coverage <= rs'[i].coverage <= 1.0)
      && (forall c: Category ::
            var s, s' := CategoryScore(ts, Coverages(rs), c), CategoryScore(ts, Coverages(rs'), c);
            (s.Some? <==> s'.Some?) && (s.Some? ==> 0.0 <= s.value <= s'.value <= 1.0))
      && 0.0 <= Score(ts, rs, policy).composite <= Score(ts, rs', policy).composite <= 1.0
      && (Score(ts, rs, policy).eligible ==> Score(ts, rs', policy).eligible)
  {
    var rs, rs' := Assessments(lex, ts, evidence), Assessments(lex, ts, evidence');
    var a, b := Coverages(rs), Coverages(rs');
    AssessmentsGrow(lex, ts, evidence, evidence');
    CompositeGrows(ts, a, b, policy);
    CoveredGrows(ts, a, b, Scores());
    forall c: Category
      ensures CategoryScore(ts, a, c).Some? <==> CategoryScore(ts, b, c).Some?
      ensures CategoryScore(ts, a, c).Some? ==>
                0.0 <= CategoryScore(ts, a, c).value <= CategoryScore(ts, b, c).value <= 1.0
    {
      CategoryScoreGrows(ts, a, b, c);
    }
    forall i | 0 <= i < |ts| ensures 0.0 <= rs[i].coverage <= rs'[i].coverage <= 1.0 {
      assert a[i] == rs[i].coverage && b[i] == rs'[i].coverage;
    }
  }
}
