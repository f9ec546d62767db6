/**
 * The Stage 1 rules: authorization, experience, education and mandatory skills each record one
 * check; the candidate fails when a check fails, and is otherwise reviewed when one asks for it.
 */
module HardFilters {
  import opened Prelude
  import opened Experience

  datatype Source = RecruiterVerified | CvExtracted | UnknownSource

  datatype Authorization = Authorized | Unauthorized | AuthorizationUnknown

  /** What the CV says of total experience: a stated total, or a dated history with its blocks. */
  datatype Evidence = Stated(years: real) | Dated(months: int, blocks: nat)

  datatype Facts = Facts(years: Option<real>, yearsSource: Source, authorized: Authorization, authorizedSource: Source)

  datatype Rules = Rules(requireAuthorization: bool, minYears: real, degreeRank: nat)

  /** A degree found in the CV. */
  datatype Degree = Degree(rank: nat, ambiguous: bool, inProgress: bool, aligned: bool, explicitField: bool)

  datatype Skill = Skill(found: bool, negated: bool)

  datatype Status = Pass | Review | Fail

  datatype Rule = AuthorizationRule | ExperienceRule | EducationRule | SkillRule

  datatype Check = Check(rule: Rule, status: Status, code: string)

  datatype Decision = Decision(status: Status, checks: seq<Check>)

  // ----- experience evidence

  ghost predicate AllEqual(claims: seq<real>) {
    forall i, j :: 0 <= i < |claims| && 0 <= j < |claims| ==> claims[i] == claims[j]
  }

  /** Consistent stated totals win; conflicting or inexact ones leave it open; else the dated history. */
  method ExtractExperience(claims: seq<real>, overallMentioned: bool, ranges: seq<Range>, undatedRole: bool, current: int)
    returns (evidence: Option<Evidence>)
    requires claims != [] ==> overallMentioned
    ensures claims != [] && AllEqual(claims) ==> evidence == Some(Stated(claims[0]))
    ensures overallMentioned && !(claims != [] && AllEqual(claims)) ==> evidence.None?
    ensures !overallMentioned ==>
              if ranges != [] && !undatedRole && AllUsable(ranges, current) then
                && evidence.Some? && evidence.value.Dated?
                && evidence.value.months == |Union(IntervalsOf(ranges, current))|
                && evidence.value.months + evidence.value.blocks == |ClosedUnion(IntervalsOf(ranges, current))|
              else evidence.None?
  {
    if claims != [] {
      var same := true;
      var i := 1;
      while i < |claims|
        invariant 1 <= i <= |claims|
        invariant same <==> forall k :: 0 <= k < i ==> claims[k] == claims[0]
      {
        same := same && claims[i] == claims[0];
        i := i + 1;
      }
      if same {
        return Some(Stated(claims[0]));
      }
      assert exists k :: 0 <= k < |claims| && claims[k] != claims[0];
    }
    if overallMentioned {
      return None;
    }
    var history := DatedHistory(ranges, undatedRole, current);
    if history.None? {
      return None;
    }
    return Some(Dated(history.value.months, |history.value.intervals|));
  }

  function EvidenceYears(e: Evidence): real {
    match e
    case Stated(years) => years
    case Dated(months, _) => months as real / 12.0
  }

  /** What the CV gives when the years were not supplied. */
  function Effective(facts: Facts, evidence: Option<Evidence>): Facts {
    if facts.years.None? && evidence.Some?
    then facts.(years := Some(EvidenceYears(evidence.value)), yearsSource := CvExtracted) else facts
  }

  // ----- the checks

  function AuthorizationCheck(rules: Rules, facts: Facts): Check {
    if !rules.requireAuthorization then Check(AuthorizationRule, Pass, "AUTHORIZATION_NOT_REQUIRED")
    else if facts.authorized.AuthorizationUnknown? then Check(AuthorizationRule, Review, "AUTHORIZATION_UNKNOWN")
    else if facts.authorizedSource != RecruiterVerified then Check(AuthorizationRule, Review, "AUTHORIZATION_UNVERIFIED")
    else if facts.authorized.Unauthorized? then Check(AuthorizationRule, Fail, "AUTHORIZATION_INELIGIBLE")
    else Check(AuthorizationRule, Pass, "AUTHORIZATION_ELIGIBLE")
  }

  function UpperYears(evidence: Option<Evidence>, years: real): real {
    match evidence
    case Some(Dated(months, blocks)) => (months + blocks) as real / 12.0
    case _ => years
  }

  function ExperienceCheck(rules: Rules, facts: Facts, evidence: Option<Evidence>): Check {
    if rules.minYears == 0.0 then Check(ExperienceRule, Pass, "EXPERIENCE_NOT_REQUIRED")
    else if facts.years.None? then Check(ExperienceRule, Review, "EXPERIENCE_UNKNOWN")
    else if facts.years.value < rules.minYears then
      if evidence.Some? && UpperYears(evidence, facts.years.value) >= rules.minYears
      then Check(ExperienceRule, Review, "EXPERIENCE_DATE_PRECISION")
      else Check(ExperienceRule, Fail, "INSUFFICIENT_EXPERIENCE")
    else if facts.yearsSource != RecruiterVerified then Check(ExperienceRule, Review, "EXPERIENCE_UNVERIFIED")
    else Check(ExperienceRule, Pass, "EXPERIENCE_MET")
  }

  predicate Qualifies(rank: nat, d: Degree) {
    d.rank >= rank && !d.ambiguous
  }

  function EducationCheck(rank: nat, degrees: seq<Degree>): Check {
    if rank == 0 then Check(EducationRule, Pass, "EDUCATION_NOT_REQUIRED")
    else if degrees == [] then Check(EducationRule, Review, "EDUCATION_UNKNOWN")
    else if exists i :: 0 <= i < |degrees| && Qualifies(rank, degrees[i]) && degrees[i].aligned && !degrees[i].inProgress
    then Check(EducationRule, Pass, "EDUCATION_MET")
    else if exists i :: 0 <= i < |degrees| && Qualifies(rank, degrees[i]) && degrees[i].aligned
    then Check(EducationRule, Review, "EDUCATION_IN_PROGRESS")
    else if exists i :: 0 <= i < |degrees| && degrees[i].ambiguous
    then Check(EducationRule, Review, "EDUCATION_AMBIGUOUS")
    else if exists i :: 0 <= i < |degrees| && Qualifies(rank, degrees[i]) then
      if forall i :: 0 <= i < |degrees| && Qualifies(rank, degrees[i]) ==> degrees[i].explicitField
      then Check(EducationRule, Fail, "EDUCATION_FIELD_MISMATCH")
      else Check(EducationRule, Review, "EDUCATION_FIELD_UNKNOWN")
    else Check(EducationRule, Fail, "EDUCATION_LEVEL_MISMATCH")
  }

  function SkillCheck(s: Skill): Check {
    if s.found then Check(SkillRule, Pass, "REQUIRED_SKILL_FOUND")
    else if s.negated then Check(SkillRule, Fail, "REQUIRED_SKILL_NEGATED")
    else Check(SkillRule, Review, "REQUIRED_SKILL_NOT_DOCUMENTED")
  }

  ghost predicate AnyStatus(checks: seq<Check>, s: Status) {
    exists i :: 0 <= i < |checks| && checks[i].status == s
  }

  // ----- the decision, read off the facts

  lemma Twelfth(a: int, b: int)
    ensures a as real / 12.0 <= b as real / 12.0 <==> a <= b
  {
    assert a as real <= b as real <==> a <= b;
  }

  /** A recruiter has verified that the candidate may not work where the JD asks for authorization. */
  ghost predicate Barred(rules: Rules, facts: Facts) {
    rules.requireAuthorization && facts.authorized.Unauthorized? && facts.authorizedSource.RecruiterVerified?
  }

  ghost predicate Cleared(rules: Rules, facts: Facts) {
    rules.requireAuthorization ==> facts.authorized.Authorized? && facts.authorizedSource.RecruiterVerified?
  }

  /** Too few years: the supplied ones, else the stated total, else the dated months with every last month in full. */
  ghost predicate TooShort(rules: Rules, facts: Facts, evidence: Option<Evidence>) {
    && rules.minYears != 0.0
    && match facts.years {
         case Some(years) => years < rules.minYears
         case None =>
           match evidence {
             case None => false
             case Some(Stated(years)) => years < rules.minYears
             case Some(Dated(months, blocks)) => (months + blocks) as real / 12.0 < rules.minYears
           }
       }
  }

  ghost predicate LongEnough(rules: Rules, facts: Facts) {
    rules.minYears != 0.0 ==>
      facts.years.Some? && facts.yearsSource.RecruiterVerified? && facts.years.value >= rules.minYears
  }

  /** Every degree is certain, and those high enough are in another field that the CV names. */
  ghost predicate Underqualified(rank: nat, degrees: seq<Degree>) {
    && rank > 0 && degrees != []
    && (forall i :: 0 <= i < |degrees| ==> !degrees[i].ambiguous)
    && (forall i :: 0 <= i < |degrees| && degrees[i].rank >= rank ==> !degrees[i].aligned && degrees[i].explicitField)
  }

  ghost predicate Qualified(rank: nat, degrees: seq<Degree>) {
    rank > 0 ==>
      exists i :: 0 <= i < |degrees| && degrees[i].rank >= rank
                  && !degrees[i].ambiguous && degrees[i].aligned && !degrees[i].inProgress
  }

  lemma AuthorizationMeans(rules: Rules, facts: Facts)
    ensures AuthorizationCheck(rules, facts).status == Fail <==> Barred(rules, facts)
    ensures AuthorizationCheck(rules, facts).status == Pass <==> Cleared(rules, facts)
  {
  }

  lemma ExperienceMeans(rules: Rules, facts: Facts, evidence: Option<Evidence>)
    ensures var used := if facts.years.None? then evidence else None;
      var check := ExperienceCheck(rules, Effective(facts, evidence), used);
      && (check.status == Fail <==> TooShort(rules, facts, evidence))
      && (check.status == Pass <==> LongEnough(rules, facts))
  {
    if evidence.Some? && evidence.value.Dated? {
      Twelfth(evidence.value.months, evidence.value.months + evidence.value.blocks);
    }
  }

  lemma EducationMeans(rank: nat, degrees: seq<Degree>)
    ensures EducationCheck(rank, degrees).status == Fail <==> Underqualified(rank, degrees)
    ensures EducationCheck(rank, degrees).status == Pass <==> Qualified(rank, degrees)
  {
  }

  /**
   * Record every check in turn, then decide. The candidate fails exactly when barred, too short, underqualified
   * or contradicting a required skill, and passes exactly when every requirement is met and verified.
   */
  method EvaluateHardFilters(facts: Facts, evidence: Option<Evidence>, rules: Rules, degrees: seq<Degree>,
                             skills: seq<Skill>) returns (d: Decision)
    ensures |d.checks| == 3 + |skills|
    ensures d.checks[0] == AuthorizationCheck(rules, facts)
    ensures d.checks[1] == ExperienceCheck(rules, Effective(facts, evidence), if facts.years.None? then evidence else None)
    ensures d.checks[2] == EducationCheck(rules.degreeRank, degrees)
    ensures forall i :: 0 <= i < |skills| ==> d.checks[3 + i] == SkillCheck(skills[i])
    ensures d.status == Fail <==> AnyStatus(d.checks, Fail)
    ensures d.status == Pass <==> forall i :: 0 <= i < |d.checks| ==> d.checks[i].status == Pass
    ensures d.status == Fail <==>
              || Barred(rules, facts) || TooShort(rules, facts, evidence) || Underqualified(rules.degreeRank, degrees)
              || exists i :: 0 <= i < |skills| && !skills[i].found && skills[i].negated
    ensures d.status == Pass <==>
              && Cleared(rules, facts) && LongEnough(rules, facts) && Qualified(rules.degreeRank, degrees)
              && forall i :: 0 <= i < |skills| ==> skills[i].found
  {
    AuthorizationMeans(rules, facts);
    ExperienceMeans(rules, facts, evidence);
    EducationMeans(rules.degreeRank, degrees);
    var used := if facts.years.None? then evidence else None;
    var known := Effective(facts, used);
    var checks := [AuthorizationCheck(rules, known), ExperienceCheck(rules, known, used),
                   EducationCheck(rules.degreeRank, degrees)];
    var i := 0;
    while i < |skills|
      invariant 0 <= i <= |skills| && |checks| == 3 + i
      invariant checks[..3] == [AuthorizationCheck(rules, known), ExperienceCheck(rules, known, used),
                                EducationCheck(rules.degreeRank, degrees)]
      invariant forall k :: 0 <= k < i ==> checks[3 + k] == SkillCheck(skills[k])
    {
      checks := checks + [SkillCheck(skills[i])];
      i := i + 1;
    }
    assert checks[0] == checks[..3][0] && checks[1] == checks[..3][1] && checks[2] == checks[..3][2];
    var failed := exists k :: 0 <= k < |checks| && checks[k].status == Fail;
    var review := exists k :: 0 <= k < |checks| && checks[k].status == Review;
    d := Decision(if failed then Fail else if review then Review else Pass, checks);
    ChecksMean(checks, skills);
  }

  /** Some check fails, or all pass: the first three and the skills tell. */
  lemma ChecksMean(checks: seq<Check>, skills: seq<Skill>)
    requires |checks| == 3 + |skills|
    requires forall i :: 0 <= i < |skills| ==> checks[3 + i] == SkillCheck(skills[i])
    ensures AnyStatus(checks, Fail) <==>
              || checks[0].status == Fail || checks[1].status == Fail || checks[2].status == Fail
              || exists i :: 0 <= i < |skills| && !skills[i].found && skills[i].negated
    ensures (forall i :: 0 <= i < |checks| ==> checks[i].status == Pass) <==>
              && checks[0].status == Pass && checks[1].status == Pass && checks[2].status == Pass
              && forall i :: 0 <= i < |skills| ==> skills[i].found
  {
    if i :| 0 <= i < |checks| && checks[i].status == Fail {
      assert i >= 3 ==> checks[3 + (i - 3)] == SkillCheck(skills[i - 3]);
    }
    forall i | 0 <= i < |skills| ensures checks[3 + i] == SkillCheck(skills[i]) {
    }
    forall i | 3 <= i < |checks| ensures checks[i] == SkillCheck(skills[i - 3]) {
      assert checks[3 + (i - 3)] == SkillCheck(skills[i - 3]);
    }
  }

  // ----- the boundary of a dated history

  /**
   * Without supplied years and under a positive minimum, a dated history is rejected exactly when
   * even counting every last month in full falls short; otherwise it goes to review, never to a pass.
   */
  lemma DatedHistoryDecision(rules: Rules, facts: Facts, ranges: seq<Range>, current: int, e: Evidence)
    requires facts.years.None? && rules.minYears > 0.0 && e.Dated? && AllUsable(ranges, current)
    requires e.months == |Union(IntervalsOf(ranges, current))|
    requires e.months + e.blocks == |ClosedUnion(IntervalsOf(ranges, current))|
    ensures var check := ExperienceCheck(rules, Effective(facts, Some(e)), Some(e));
      && (check.status == Fail <==> |ClosedUnion(IntervalsOf(ranges, current))| as real / 12.0 < rules.minYears)
      && (check.status != Fail ==> check.status == Review)
  {
    Twelfth(e.months, e.months + e.blocks);
  }

  ghost predicate HasHistory(ranges: seq<Range>, undatedRole: bool, current: int) {
    ranges != [] && !undatedRole && AllUsable(ranges, current)
  }

  /**
   * From the text alone, under a positive minimum: a candidate fails on experience exactly when the one
   * consistent stated total is short, or no total is mentioned and the months of a complete dated history
   * are too few even when every last month counts in full. Text alone never passes.
   */
  method ScreenFromText(facts: Facts, claims: seq<real>, overallMentioned: bool, ranges: seq<Range>, undatedRole: bool,
                        current: int, rules: Rules, degrees: seq<Degree>, skills: seq<Skill>) returns (d: Decision)
    requires facts.years.None? && rules.minYears > 0.0 && (claims != [] ==> overallMentioned)
    ensures |d.checks| >= 2 && d.checks[1].rule == ExperienceRule && d.checks[1].status != Pass && d.status != Pass
    ensures d.checks[1].status == Fail <==>
              if claims != [] && AllEqual(claims) then claims[0] < rules.minYears
              else !overallMentioned && HasHistory(ranges, undatedRole, current)
                   && |ClosedUnion(IntervalsOf(ranges, current))| as real / 12.0 < rules.minYears
  {
    var evidence := ExtractExperience(claims, overallMentioned, ranges, undatedRole, current);
    d := EvaluateHardFilters(facts, evidence, rules, degrees, skills);
    if !overallMentioned && HasHistory(ranges, undatedRole, current) {
      DatedHistoryDecision(rules, facts, ranges, current, evidence.value);
    }
  }
}
