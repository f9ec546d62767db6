/**
 * The relevance targets a candidate is scored against: the approved ones of the contract, and derived
 * ones for what the contract leaves open. Only derived skill targets carry substitutes, and those have one
 * group, so the coverage of every target decides whether it is supported.
 */
module Targets {
  import opened Prelude
  import opened Coverage
  import opened Scoring

  datatype Approval = Approval(category: Category, kind: Kind, groups: seq<seq<string>>, importance: real,
                               preference: bool, text: string)

  datatype Cluster = Cluster(canonical: string, aliases: seq<string>, substitutes: seq<string>)

  /** A degree rule with a level; the fields may be empty. */
  datatype Degree = Degree(level: seq<string>, fields: seq<string>)

  /** The contract's own checks: groups are never missing, importance is positive. */
  ghost predicate ValidContract(contract: seq<Approval>) {
    forall i :: 0 <= i < |contract| ==> contract[i].groups != [] && 0.0 < contract[i].importance
  }

  // ----- one target

  predicate TakesDegree(a: Approval, degree: Option<Degree>, mentioned: string -> bool) {
    degree.Some? && a.kind.EducationKind? && !a.preference && mentioned(a.text)
  }

  function DegreeGroups(d: Degree): seq<seq<string>> {
    if d.fields == [] then [d.level] else [d.level, d.fields]
  }

  /** An approved target; a degree rule replaces the terms of the education requirement it speaks of. */
  function FromApproval(a: Approval, degree: Option<Degree>, mentioned: string -> bool): Target {
    Target(a.category, a.kind,
           if TakesDegree(a, degree, mentioned) then DegreeGroups(degree.value) else a.groups,
           [], a.importance, a.preference, true)
  }

  function FromCluster(c: Cluster, category: Category): Target {
    Target(category, if category.Skills? then SkillKind else ExperienceKind, [[c.canonical] + c.aliases],
           c.substitutes, 1.0, false, false)
  }

  function FromPreference(c: Cluster): Target {
    Target(Skills, SkillKind, [[c.canonical] + c.aliases], [], 1.0, true, false)
  }

  function QueryKind(category: Category): Kind {
    match category
    case Skills => SkillKind
    case Experience => ExperienceKind
    case Projects => ProjectKind
    case Education => EducationKind
  }

  function FromQuery(category: Category, groups: seq<seq<string>>): Target {
    Target(category, QueryKind(category), Take(groups, 8), [], 1.0, false, false)
  }

  // ----- one category

  /** The contract states a requirement in the category. */
  predicate Explicit(contract: seq<Approval>, category: Category) {
    exists i :: 0 <= i < |contract| && contract[i].category == category && !contract[i].preference
  }

  function FromClusters(category: Category): Cluster -> Target {
    (c: Cluster) => FromCluster(c, category)
  }

  function FromPreferences(): Cluster -> Target {
    (c: Cluster) => FromPreference(c)
  }

  /** What is derived for a category the contract leaves open; `query` are the groups found in its query. */
  function Derived(category: Category, required: seq<Cluster>, preferred: seq<Cluster>, query: seq<seq<string>>): seq<Target> {
    if (category.Skills? || category.Experience?) && required != [] then
      Map(required, FromClusters(category)) + (if category.Skills? then Map(preferred, FromPreferences()) else [])
    else if query == [] then [] else [FromQuery(category, query)]
  }

  // ----- what is derived, in one statement

  ghost predicate Demands(contract: seq<Approval>, category: Category) {
    exists a :: a in contract && a.category == category && !a.preference
  }

  /** A target made of the first eight groups found in the category's query. */
  ghost predicate FromWords(t: Target, groups: seq<seq<string>>) {
    && groups != [] && t.groups == (if |groups| <= 8 then groups else groups[..8])
    && t.substitutes == [] && t.importance == 1.0 && !t.preference && !t.approved
    && match t.category
       case Skills => t.kind.SkillKind?
       case Experience => t.kind.ExperienceKind?
       case Projects => t.kind.ProjectKind?
       case Education => t.kind.EducationKind?
  }

  /** A target made of the names of a cluster. */
  ghost predicate FromNames(t: Target, c: Cluster, kind: Kind, preference: bool) {
    && t.kind == kind && t.groups == [[c.canonical] + c.aliases] && t.importance == 1.0
    && t.preference == preference && !t.approved
    && t.substitutes == (if preference then [] else c.substitutes)
  }

  /**
   * Required clusters are always asked of experience. The contract's silence on skills adds them there too, with
   * the preferred ones; a category without demands or clusters falls back to the words of its query.
   */
  ghost predicate IsDerived(contract: seq<Approval>, required: seq<Cluster>, preferred: seq<Cluster>,
                            query: Category -> seq<seq<string>>, t: Target)
  {
    match t.category
    case Experience =>
      || (exists c :: c in required && FromNames(t, c, ExperienceKind, false))
      || (required == [] && !Demands(contract, Experience) && FromWords(t, query(Experience)))
    case Skills =>
      && !Demands(contract, Skills)
      && (if required == [] then FromWords(t, query(Skills))
          else || (exists c :: c in required && FromNames(t, c, SkillKind, false))
               || (exists c :: c in preferred && FromNames(t, c, SkillKind, true)))
    case Projects => !Demands(contract, Projects) && FromWords(t, query(Projects))
    case Education => !Demands(contract, Education) && FromWords(t, query(Education))
  }

  lemma ExplicitMeans(contract: seq<Approval>, category: Category)
    ensures Explicit(contract, category) <==> Demands(contract, category)
  {
    if Demands(contract, category) {
      var a :| a in contract && a.category == category && !a.preference;
      var i :| 0 <= i < |contract| && contract[i] == a;
    }
  }

  lemma FromClustersMeans(cs: seq<Cluster>, category: Category, t: Target)
    ensures t in Map(cs, FromClusters(category)) <==>
              t.category == category
              && exists c :: c in cs && FromNames(t, c, if category.Skills? then SkillKind else ExperienceKind, false)
  {
    var kind := if category.Skills? then SkillKind else ExperienceKind;
    if c :| c in cs && FromNames(t, c, kind, false) && t.category == category {
      var i :| 0 <= i < |cs| && cs[i] == c;
      assert Map(cs, FromClusters(category))[i] == t;
    }
    if t in Map(cs, FromClusters(category)) {
      var i :| 0 <= i < |cs| && Map(cs, FromClusters(category))[i] == t;
      assert cs[i] in cs && FromNames(t, cs[i], kind, false);
    }
  }

  lemma FromPreferencesMeans(cs: seq<Cluster>, t: Target)
    ensures t in Map(cs, FromPreferences()) <==>
              t.category.Skills? && exists c :: c in cs && FromNames(t, c, SkillKind, true)
  {
    if c :| c in cs && FromNames(t, c, SkillKind, true) && t.category.Skills? {
      var i :| 0 <= i < |cs| && cs[i] == c;
      assert Map(cs, FromPreferences())[i] == t;
    }
    if t in Map(cs, FromPreferences()) {
      var i :| 0 <= i < |cs| && Map(cs, FromPreferences())[i] == t;
      assert cs[i] in cs && FromNames(t, cs[i], SkillKind, true);
    }
  }

  lemma FromQueryMeans(category: Category, groups: seq<seq<string>>, t: Target)
    ensures t == FromQuery(category, groups) && groups != [] <==> t.category == category && FromWords(t, groups)
  {
  }

  lemma DerivedMeans(category: Category, required: seq<Cluster>, preferred: seq<Cluster>, query: seq<seq<string>>, t: Target)
    ensures t in Derived(category, required, preferred, query) <==>
              && t.category == category
              && if (category.Skills? || category.Experience?) && required != [] then
                   || (exists c :: c in required && FromNames(t, c, if category.Skills? then SkillKind else ExperienceKind, false))
                   || (category.Skills? && exists c :: c in preferred && FromNames(t, c, SkillKind, true))
                 else FromWords(t, query)
  {
    FromClustersMeans(required, category, t);
    FromPreferencesMeans(preferred, t);
    FromQueryMeans(category, query, t);
  }

  lemma {:induction false} DerivedUpToMeans(contract: seq<Approval>, required: seq<Cluster>, preferred: seq<Cluster>,
                                            query: Category -> seq<seq<string>>, n: nat, t: Target)
    requires n <= |CATEGORIES|
    ensures t in DerivedUpTo(contract, required, preferred, query, n) <==>
              && t.category in CATEGORIES[..n] && !Explicit(contract, t.category)
              && t in Derived(t.category, required, preferred, query(t.category))
  {
    if n > 0 {
      DerivedUpToMeans(contract, required, preferred, query, n - 1, t);
      var category := CATEGORIES[n - 1];
      assert CATEGORIES[..n] == CATEGORIES[..n - 1] + [category];
      DerivedMeans(category, required, preferred, query(category), t);
    }
  }

  lemma AllDerived(contract: seq<Approval>, required: seq<Cluster>, preferred: seq<Cluster>,
                   query: Category -> seq<seq<string>>, t: Target)
    ensures t in (if Explicit(contract, Experience) then Map(required, FromClusters(Experience)) else [])
                 + DerivedUpTo(contract, required, preferred, query, |CATEGORIES|)
       <==> IsDerived(contract, required, preferred, query, t)
  {
    DerivedUpToMeans(contract, required, preferred, query, |CATEGORIES|, t);
    assert CATEGORIES[..|CATEGORIES|] == CATEGORIES;
    CategoryListed(t.category);
    ExplicitMeans(contract, t.category);
    ExplicitMeans(contract, Experience);
    DerivedMeans(t.category, required, preferred, query(t.category), t);
    FromClustersMeans(required, Experience, t);
  }

  // ----- the loops

  method FromContract(contract: seq<Approval>, degree: Option<Degree>, mentioned: string -> bool) returns (ts: seq<Target>)
    ensures |ts| == |contract|
    ensures forall i :: 0 <= i < |ts| ==> ts[i] == FromApproval(contract[i], degree, mentioned)
  {
    ts := [];
    var i := 0;
    while i < |contract|
      invariant 0 <= i <= |contract| && |ts| == i
      invariant forall k :: 0 <= k < i ==> ts[k] == FromApproval(contract[k], degree, mentioned)
    {
      ts := ts + [FromApproval(contract[i], degree, mentioned)];
      i := i + 1;
    }
  }

  /** Everything derived for the first `n` categories that the contract leaves open. */
  function DerivedUpTo(contract: seq<Approval>, required: seq<Cluster>, preferred: seq<Cluster>,
                       query: Category -> seq<seq<string>>, n: nat): seq<Target>
    requires n <= |CATEGORIES|
  {
    if n == 0 then []
    else
      var before := DerivedUpTo(contract, required, preferred, query, n - 1);
      var category := CATEGORIES[n - 1];
      if Explicit(contract, category) then before
      else before + Derived(category, required, preferred, query(category))
  }

  ghost predicate AllDerivedOk(ts: seq<Target>) {
    forall i :: 0 <= i < |ts| ==> DerivedOk(ts[i])
  }

  method DeriveTargets(contract: seq<Approval>, required: seq<Cluster>, preferred: seq<Cluster>,
                       query: Category -> seq<seq<string>>)
    returns (ts: seq<Target>)
    ensures ts == DerivedUpTo(contract, required, preferred, query, |CATEGORIES|) && AllDerivedOk(ts)
  {
    ts := [];
    var n := 0;
    while n < |CATEGORIES|
      invariant 0 <= n <= |CATEGORIES|
      invariant ts == DerivedUpTo(contract, required, preferred, query, n) && AllDerivedOk(ts)
    {
      var category := CATEGORIES[n];
      if !Explicit(contract, category) {
        DerivedAreOk(category, required, preferred, query(category));
        ts := ts + Derived(category, required, preferred, query(category));
      }
      n := n + 1;
    }
  }

  /**
   * Approved targets come first, in order. Every target has a group and positive importance, and
   * substitutes only beside a single group.
   */
  method ResolveTargets(contract: seq<Approval>, degree: Option<Degree>, mentioned: string -> bool,
                        required: seq<Cluster>, preferred: seq<Cluster>, query: Category -> seq<seq<string>>)
    returns (ts: seq<Target>)
    requires ValidContract(contract)
    ensures ValidTargets(ts) && forall i :: 0 <= i < |ts| ==> Resolved(ts[i])
    ensures |contract| <= |ts|
    ensures forall i :: 0 <= i < |ts| ==> (ts[i].approved <==> i < |contract|)
    ensures forall i :: 0 <= i < |contract| ==> ts[i] == FromApproval(contract[i], degree, mentioned)
    ensures ts[|contract|..]
         == (if Explicit(contract, Experience) then Map(required, FromClusters(Experience)) else [])
            + DerivedUpTo(contract, required, preferred, query, |CATEGORIES|)
    ensures forall i :: 0 <= i < |contract| ==>
      var a, t := contract[i], ts[i];
      && t.category == a.category && t.kind == a.kind && t.importance == a.importance && t.preference == a.preference
      && t.substitutes == []
      && (if degree.Some? && a.kind.EducationKind? && !a.preference && mentioned(a.text)
          then t.groups[0] == degree.value.level
               && t.groups[1..] == (if degree.value.fields == [] then [] else [degree.value.fields])
          else t.groups == a.groups)
    ensures forall t :: t in ts[|contract|..] <==> IsDerived(contract, required, preferred, query, t)
  {
    var approved := FromContract(contract, degree, mentioned);
    var delivery: seq<Target> := [];
    if Explicit(contract, Experience) {
      delivery := Map(required, FromClusters(Experience));
    }
    assert AllDerivedOk(delivery);
    var derived := DeriveTargets(contract, required, preferred, query);
    ts := approved + (delivery + derived);
    assert ts[|contract|..] == delivery + derived;
    forall t ensures t in ts[|contract|..] <==> IsDerived(contract, required, preferred, query, t) {
      AllDerived(contract, required, preferred, query, t);
    }
  }

  predicate DerivedOk(t: Target) {
    t.groups != [] && t.importance == 1.0 && !t.approved && Resolved(t)
  }

  lemma DerivedAreOk(category: Category, required: seq<Cluster>, preferred: seq<Cluster>, query: seq<seq<string>>)
    ensures AllDerivedOk(Derived(category, required, preferred, query))
  {
  }
}
