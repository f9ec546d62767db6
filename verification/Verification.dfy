/**
 * Verifying an assessment against the registry: every citation and every claim gets a check, and the
 * checks raise the reasons for review. A resolved selection of existing handles of the right
 * categories passes every check exactly when each cited sentence has a word character.
 */
module Verification {
  import opened Prelude
  import opened Sentences
  import opened SentenceGroups
  import opened Selection
  import opened Excerpt

  datatype Reason =
    | MalformedCitation | UnknownCitation | WrongCategory
    | InvalidClaimCitation | EmptySupport | EllipsisInQuote | QuoteNotInSource | InvalidIdentity | NotExplicit
    | NumberNotInQuote

  datatype Check = Check(field: Field, ofClaim: bool, tag: Tag, reason: Option<Reason>)

  datatype Issue =
    | ContextTruncated
    | InjectionSignal
    | MissingEvidence(category: Category)
    | MissingCitations(field: Field)
    | InvalidCitations(field: Field)
    | MissingClaimSupport(field: Field)
    | UnsupportedClaim(field: Field)

  datatype Verified = Verified(checks: seq<Check>, issues: set<Issue>, flags: seq<nat>)

  /** Something that looks like an injected instruction: reported with the payload, or found in an entry. */
  datatype Signal = Reported(name: string) | InEntry(tag: Tag)

  datatype Report = Report(verified: Verified, signals: set<Signal>)

  /** An assessment may cite its own category; a career gap only experience; other flags anything. */
  predicate Allows(field: Field, category: Category) {
    match field
    case CategoryField(c) => category == c
    case FlagField(_, kind) => kind.CareerGap? ==> category == Experience
  }

  predicate Elided(quote: string) {
    PartOf("...", quote) || PartOf("\U{2026}", quote)
  }

  // ----- what each check should say

  function CitationReason(tags: map<Tag, Ref>, field: Field, tag: Tag): Option<Reason> {
    if tag.UnknownId? || tag.n == 0 then Some(MalformedCitation)
    else if tag !in tags then Some(UnknownCitation)
    else if !Allows(field, tags[tag].source.category) then Some(WrongCategory)
    else None
  }

  ghost function ClaimReason(lex: Lexicon, tags: map<Tag, Ref>, part: Part, claim: Claim): Option<Reason>
    requires Lawful(lex)
  {
    if claim.citation !in tags || !Allows(part.field, tags[claim.citation].source.category)
       || claim.citation !in part.citations then Some(InvalidClaimCitation)
    else
      var r := tags[claim.citation];
      if lex.blank(claim.claim) || lex.blank(claim.quote) then Some(EmptySupport)
      else if claim.id.None? && Elided(claim.quote) then Some(EllipsisInQuote)
      else if !PartOf(lex.normal(claim.quote), lex.normal(TextOf(r))) then Some(QuoteNotInSource)
      else if claim.id.Some? && claim.id.value != Known(r) then Some(InvalidIdentity)
      else if claim.id.Some? && !Explicit(lex, claim.claim, TextOf(r)) then Some(NotExplicit)
      else if !(lex.numbers(claim.claim) <= lex.numbers(claim.quote)) then Some(NumberNotInQuote)
      else None
  }

  /** A citation passes when it is the tag of an entry that the field may cite. */
  lemma CitationPasses(tags: map<Tag, Ref>, field: Field, t: Tag)
    ensures CitationReason(tags, field, t).None? <==>
              && t.Tag? && t.n >= 1 && t in tags
              && (field.CategoryField? ==> tags[t].source.category == field.category)
              && (field.FlagField? && field.kind.CareerGap? ==> tags[t].source.category == Experience)
    ensures CitationReason(tags, field, t) == Some(MalformedCitation) <==> !(t.Tag? && t.n >= 1)
    ensures CitationReason(tags, field, t) == Some(UnknownCitation) <==> t.Tag? && t.n >= 1 && t !in tags
  {
  }

  /**
   * A claim passes when its citation is cited and allowed, claim and quote are not blank, the quote stands in
   * the entry and has the claim's numbers; without an identity it must not be elided, and with one the
   * identity must be the entry's and the claim an excerpt of it.
   */
  lemma ClaimPasses(lex: Lexicon, tags: map<Tag, Ref>, part: Part, claim: Claim)
    requires Lawful(lex)
    ensures ClaimReason(lex, tags, part, claim).None? <==>
              && claim.citation in part.citations && claim.citation in tags
              && var r := tags[claim.citation];
              && (part.field.CategoryField? ==> r.source.category == part.field.category)
              && (part.field.FlagField? && part.field.kind.CareerGap? ==> r.source.category == Experience)
              && !lex.blank(claim.claim) && !lex.blank(claim.quote)
              && (exists before: string, after: string ::
                    lex.normal(TextOf(r)) == before + lex.normal(claim.quote) + after)
              && lex.numbers(claim.claim) <= lex.numbers(claim.quote)
              && match claim.id
                 case None =>
                   && (forall before: string, after: string :: claim.quote != before + "..." + after)
                   && (forall before: string, after: string :: claim.quote != before + "\U{2026}" + after)
                 case Some(id) => id == Known(r) && Explicit(lex, claim.claim, TextOf(r))
  {
    if claim.citation in tags {
      PartStands(lex.normal(claim.quote), lex.normal(TextOf(tags[claim.citation])));
    }
    PartStands("...", claim.quote);
    PartStands("\U{2026}", claim.quote);
  }

  ghost predicate CitationsPass(tags: map<Tag, Ref>, part: Part) {
    forall t :: t in part.citations ==> CitationReason(tags, part.field, t).None?
  }

  ghost predicate ClaimsPass(lex: Lexicon, tags: map<Tag, Ref>, part: Part)
    requires Lawful(lex)
  {
    forall c :: c in part.claims ==> ClaimReason(lex, tags, part, c).None?
  }

  /** Some claim about the citation passes. */
  ghost predicate SupportedTag(lex: Lexicon, tags: map<Tag, Ref>, part: Part, t: Tag)
    requires Lawful(lex)
  {
    exists c :: c in part.claims && c.citation == t && ClaimReason(lex, tags, part, c).None?
  }

  ghost predicate EveryCitationSupported(lex: Lexicon, tags: map<Tag, Ref>, part: Part)
    requires Lawful(lex)
  {
    forall t :: t in part.citations ==> SupportedTag(lex, tags, part, t)
  }

  /** What makes a flag count as verified. */
  ghost predicate Sound(lex: Lexicon, tags: map<Tag, Ref>, part: Part, strict: bool)
    requires Lawful(lex)
  {
    && part.citations != [] && CitationsPass(tags, part) && ClaimsPass(lex, tags, part)
    && (strict ==> EveryCitationSupported(lex, tags, part))
  }

  /** The reasons for review one assessment or flag gives rise to. */
  ghost predicate Raises(lex: Lexicon, tags: map<Tag, Ref>, part: Part, strict: bool, issue: Issue)
    requires Lawful(lex)
  {
    match issue
    case MissingCitations(f) => f == part.field && part.citations == []
    case InvalidCitations(f) => f == part.field && !CitationsPass(tags, part)
    case MissingClaimSupport(f) => f == part.field && strict && !EveryCitationSupported(lex, tags, part)
    case UnsupportedClaim(f) => f == part.field && !ClaimsPass(lex, tags, part)
    case _ => false
  }

  ghost function CitationCheck(tags: map<Tag, Ref>, field: Field): Tag -> Check {
    (t: Tag) => Check(field, false, t, CitationReason(tags, field, t))
  }

  ghost function ClaimCheck(lex: Lexicon, tags: map<Tag, Ref>, part: Part): Claim -> Check
    requires Lawful(lex)
  {
    (c: Claim) => Check(part.field, true, c.citation, ClaimReason(lex, tags, part, c))
  }

  ghost function ChecksOf(lex: Lexicon, tags: map<Tag, Ref>, part: Part): seq<Check>
    requires Lawful(lex)
  {
    Map(part.citations, CitationCheck(tags, part.field)) + Map(part.claims, ClaimCheck(lex, tags, part))
  }

  ghost function AllChecks(lex: Lexicon, tags: map<Tag, Ref>, parts: seq<Part>): seq<Check>
    requires Lawful(lex)
  {
    if parts == [] then []
    else AllChecks(lex, tags, parts[..|parts| - 1]) + ChecksOf(lex, tags, parts[|parts| - 1])
  }

  // ----- the checks

  method CheckCitations(tags: map<Tag, Ref>, part: Part) returns (checks: seq<Check>, issues: set<Issue>, valid: bool)
    ensures checks == Map(part.citations, CitationCheck(tags, part.field))
    ensures valid <==> part.citations != [] && CitationsPass(tags, part)
    ensures MissingCitations(part.field) in issues <==> part.citations == []
    ensures InvalidCitations(part.field) in issues <==> !CitationsPass(tags, part)
    ensures issues <= {MissingCitations(part.field), InvalidCitations(part.field)}
  {
    checks, issues, valid := [], {}, part.citations != [];
    if part.citations == [] {
      issues := issues + {MissingCitations(part.field)};
    }
    var k := 0;
    while k < |part.citations|
      invariant 0 <= k <= |part.citations| && |checks| == k
      invariant forall i :: 0 <= i < k ==> checks[i] == CitationCheck(tags, part.field)(part.citations[i])
      invariant valid <==> part.citations != [] && forall i :: 0 <= i < k ==> checks[i].reason.None?
      invariant MissingCitations(part.field) in issues <==> part.citations == []
      invariant InvalidCitations(part.field) in issues <==> exists i :: 0 <= i < k && checks[i].reason.Some?
      invariant issues <= {MissingCitations(part.field), InvalidCitations(part.field)}
    {
      var citation := part.citations[k];
      var reason := None;
      if citation.UnknownId? || citation.n == 0 {
        reason := Some(MalformedCitation);
      } else if citation !in tags {
        reason := Some(UnknownCitation);
      } else if !Allows(part.field, tags[citation].source.category) {
        reason := Some(WrongCategory);
      }
      checks := checks + [Check(part.field, false, citation, reason)];
      if reason.Some? {
        valid := false;
        issues := issues + {InvalidCitations(part.field)};
        assert checks[k].reason.Some?;
      }
      k := k + 1;
    }
  }

  method CheckClaim(lex: Lexicon, tags: map<Tag, Ref>, part: Part, claim: Claim) returns (reason: Option<Reason>)
    requires Lawful(lex)
    ensures reason == ClaimReason(lex, tags, part, claim)
  {
    if claim.citation !in tags || !Allows(part.field, tags[claim.citation].source.category)
       || claim.citation !in part.citations {
      return Some(InvalidClaimCitation);
    }
    var r := tags[claim.citation];
    if lex.blank(claim.claim) || lex.blank(claim.quote) {
      return Some(EmptySupport);
    } else if claim.id.None? && Elided(claim.quote) {
      return Some(EllipsisInQuote);
    } else if !PartOf(lex.normal(claim.quote), lex.normal(TextOf(r))) {
      return Some(QuoteNotInSource);
    } else if claim.id.Some? && claim.id.value != Known(r) {
      return Some(InvalidIdentity);
    }
    if claim.id.Some? {
      var explicit := ClaimIsSourceExcerpt(lex, claim.claim, TextOf(r));
      if !explicit {
        return Some(NotExplicit);
      }
    }
    if !(lex.numbers(claim.claim) <= lex.numbers(claim.quote)) {
      return Some(NumberNotInQuote);
    }
    reason := None;
  }

  lemma SupportedTags(lex: Lexicon, tags: map<Tag, Ref>, part: Part, checks: seq<Check>, supported: set<Tag>)
    requires Lawful(lex) && |checks| == |part.claims|
    requires forall i :: 0 <= i < |checks| ==> checks[i] == ClaimCheck(lex, tags, part)(part.claims[i])
    requires forall t :: t in supported <==>
               exists i :: 0 <= i < |checks| && part.claims[i].citation == t && checks[i].reason.None?
    ensures forall t :: t in supported <==> SupportedTag(lex, tags, part, t)
  {
    forall t ensures t in supported <==> SupportedTag(lex, tags, part, t) {
      if SupportedTag(lex, tags, part, t) {
        var c :| c in part.claims && c.citation == t && ClaimReason(lex, tags, part, c).None?;
        var i :| 0 <= i < |part.claims| && part.claims[i] == c;
        assert checks[i] == ClaimCheck(lex, tags, part)(part.claims[i]);
      }
    }
  }

  /** Check the claims one by one; each that fails raises its reason, each that passes supports its citation. */
  method CheckClaims(lex: Lexicon, tags: map<Tag, Ref>, part: Part, before: set<Issue>, sound: bool)
    returns (checks: seq<Check>, issues: set<Issue>, valid: bool, supported: set<Tag>)
    requires Lawful(lex)
    ensures checks == Map(part.claims, ClaimCheck(lex, tags, part))
    ensures issues == before + (if ClaimsPass(lex, tags, part) then {} else {UnsupportedClaim(part.field)})
    ensures valid <==> sound && ClaimsPass(lex, tags, part)
    ensures forall t :: t in supported <==> SupportedTag(lex, tags, part, t)
  {
    checks, issues, valid, supported := [], before, sound, {};
    ghost var failed := false;
    var k := 0;
    while k < |part.claims|
      invariant 0 <= k <= |part.claims| && |checks| == k
      invariant forall i :: 0 <= i < k ==> checks[i] == ClaimCheck(lex, tags, part)(part.claims[i])
      invariant forall t :: t in supported <==> exists i :: 0 <= i < k && part.claims[i].citation == t && checks[i].reason.None?
      invariant failed <==> exists i :: 0 <= i < k && checks[i].reason.Some?
      invariant valid <==> sound && !failed
      invariant issues == before + (if failed then {UnsupportedClaim(part.field)} else {})
    {
      var claim := part.claims[k];
      var reason := CheckClaim(lex, tags, part, claim);
      checks := checks + [Check(part.field, true, claim.citation, reason)];
      if reason.Some? {
        issues := issues + {UnsupportedClaim(part.field)};
        valid, failed := false, true;
        assert checks[k].reason.Some?;
      } else {
        supported := supported + {claim.citation};
      }
      k := k + 1;
    }
    SupportedTags(lex, tags, part, checks, supported);
    assert failed <==> !ClaimsPass(lex, tags, part);
  }

  method CheckSupport(lex: Lexicon, tags: map<Tag, Ref>, part: Part, strict: bool)
    returns (checks: seq<Check>, issues: set<Issue>, valid: bool)
    requires Lawful(lex)
    ensures checks == Map(part.claims, ClaimCheck(lex, tags, part))
    ensures valid <==> ClaimsPass(lex, tags, part) && (strict ==> EveryCitationSupported(lex, tags, part))
    ensures MissingClaimSupport(part.field) in issues <==> strict && !EveryCitationSupported(lex, tags, part)
    ensures UnsupportedClaim(part.field) in issues <==> !ClaimsPass(lex, tags, part)
    ensures issues <= {MissingClaimSupport(part.field), UnsupportedClaim(part.field)}
  {
    issues, valid := {}, true;
    if strict && part.citations != [] && part.claims == [] {
      assert part.citations[0] in part.citations && !SupportedTag(lex, tags, part, part.citations[0]);
      issues := issues + {MissingClaimSupport(part.field)};
      valid := false;
    }
    var supported;
    checks, issues, valid, supported := CheckClaims(lex, tags, part, issues, valid);
    if strict && exists t :: t in part.citations && t !in supported {
      issues := issues + {MissingClaimSupport(part.field)};
      valid := false;
    }
  }

  // ----- all of it

  /** The reasons for review of a whole assessment. */
  ghost predicate Raised(lex: Lexicon, tags: map<Tag, Ref>, parts: seq<Part>, strict: bool, complete: bool,
                         signals: set<Signal>, issue: Issue)
    requires Lawful(lex)
  {
    || (issue.ContextTruncated? && !complete)
    || (issue.InjectionSignal? && signals != {})
    || (issue.MissingEvidence? && NoEvidence(tags, issue.category))
    || RaisedBy(lex, tags, parts, strict, issue)
  }

  predicate NoEvidence(tags: map<Tag, Ref>, category: Category) {
    forall t :: t in tags ==> tags[t].source.category != category
  }

  /** The four assessments in order, then the flags in order. */
  ghost predicate InOrder(parts: seq<Part>) {
    && |parts| >= |CATEGORIES|
    && (forall i :: 0 <= i < |CATEGORIES| ==> parts[i].field == CategoryField(CATEGORIES[i]))
    && (forall i :: |CATEGORIES| <= i < |parts| ==> parts[i].field.FlagField? && parts[i].field.index == i - |CATEGORIES|)
  }

  method CheckPart(lex: Lexicon, tags: map<Tag, Ref>, part: Part, strict: bool)
    returns (checks: seq<Check>, issues: set<Issue>, valid: bool)
    requires Lawful(lex)
    ensures checks == ChecksOf(lex, tags, part)
    ensures valid <==> Sound(lex, tags, part, strict)
    ensures forall issue :: issue in issues <==> Raises(lex, tags, part, strict, issue)
  {
    var cited, missing, citationsValid := CheckCitations(tags, part);
    var claimed, unsupported, supportValid := CheckSupport(lex, tags, part, strict);
    checks, issues, valid := cited + claimed, missing + unsupported, citationsValid && supportValid;
  }

  ghost predicate RaisedBy(lex: Lexicon, tags: map<Tag, Ref>, parts: seq<Part>, strict: bool, issue: Issue)
    requires Lawful(lex)
  {
    exists i :: 0 <= i < |parts| && Raises(lex, tags, parts[i], strict, issue)
  }

  lemma RaisedNext(lex: Lexicon, tags: map<Tag, Ref>, parts: seq<Part>, strict: bool, issue: Issue, k: nat)
    requires Lawful(lex) && k < |parts|
    ensures RaisedBy(lex, tags, parts[..k + 1], strict, issue)
       <==> RaisedBy(lex, tags, parts[..k], strict, issue) || Raises(lex, tags, parts[k], strict, issue)
  {
    assert parts[..k + 1] == parts[..k] + [parts[k]];
    if RaisedBy(lex, tags, parts[..k], strict, issue) {
      var i :| 0 <= i < k && Raises(lex, tags, parts[..k][i], strict, issue);
      assert parts[..k + 1][i] == parts[i];
    }
    if Raises(lex, tags, parts[k], strict, issue) {
      assert parts[..k + 1][k] == parts[k];
    }
  }

  /** The flags verified among the parts: those that are sound. */
  ghost predicate SoundFlags(lex: Lexicon, tags: map<Tag, Ref>, parts: seq<Part>, strict: bool, flags: seq<nat>)
    requires Lawful(lex)
  {
    forall n: nat :: n in flags <==> n < |parts| - |CATEGORIES| && Sound(lex, tags, parts[|CATEGORIES| + n], strict)
  }

  ghost predicate Done(lex: Lexicon, tags: map<Tag, Ref>, parts: seq<Part>, strict: bool, v: Verified)
    requires Lawful(lex)
  {
    && v.checks == AllChecks(lex, tags, parts) && SoundFlags(lex, tags, parts, strict, v.flags)
    && forall issue :: issue in v.issues <==> RaisedBy(lex, tags, parts, strict, issue)
  }

  lemma FlagsNext(lex: Lexicon, tags: map<Tag, Ref>, parts: seq<Part>, strict: bool, flags: seq<nat>, k: nat)
    requires Lawful(lex) && k < |parts| && SoundFlags(lex, tags, parts[..k], strict, flags)
    ensures SoundFlags(lex, tags, parts[..k + 1], strict,
              if k >= |CATEGORIES| && Sound(lex, tags, parts[k], strict) then flags + [k - |CATEGORIES|] else flags)
  {
    assert forall i :: 0 <= i < k ==> parts[..k + 1][i] == parts[..k][i];
  }

  lemma DoneNext(lex: Lexicon, tags: map<Tag, Ref>, parts: seq<Part>, strict: bool, v: Verified, k: nat,
                 more: seq<Check>, raised: set<Issue>, flags: seq<nat>)
    requires Lawful(lex) && k < |parts| && Done(lex, tags, parts[..k], strict, v)
    requires more == ChecksOf(lex, tags, parts[k])
    requires forall issue :: issue in raised <==> Raises(lex, tags, parts[k], strict, issue)
    requires SoundFlags(lex, tags, parts[..k + 1], strict, flags)
    ensures Done(lex, tags, parts[..k + 1], strict, Verified(v.checks + more, v.issues + raised, flags))
  {
    assert parts[..k + 1][..k] == parts[..k];
    forall issue ensures issue in v.issues + raised <==> RaisedBy(lex, tags, parts[..k + 1], strict, issue) {
      RaisedNext(lex, tags, parts, strict, issue, k);
    }
  }

  lemma DoneNothing(lex: Lexicon, tags: map<Tag, Ref>, strict: bool)
    requires Lawful(lex)
    ensures Done(lex, tags, [], strict, Verified([], {}, []))
  {
  }

  method CheckNext(lex: Lexicon, tags: map<Tag, Ref>, parts: seq<Part>, strict: bool, v: Verified, k: nat) returns (w: Verified)
    requires Lawful(lex) && k < |parts| && Done(lex, tags, parts[..k], strict, v)
    ensures Done(lex, tags, parts[..k + 1], strict, w)
  {
    var checks, issues, valid := CheckPart(lex, tags, parts[k], strict);
    var flags := if k >= |CATEGORIES| && valid then v.flags + [k - |CATEGORIES|] else v.flags;
    FlagsNext(lex, tags, parts, strict, v.flags, k);
    DoneNext(lex, tags, parts, strict, v, k, checks, issues, flags);
    w := Verified(v.checks + checks, v.issues + issues, flags);
  }

  method CheckParts(lex: Lexicon, tags: map<Tag, Ref>, parts: seq<Part>, strict: bool) returns (v: Verified)
    requires Lawful(lex)
    ensures Done(lex, tags, parts, strict, v)
  {
    v := Verified([], {}, []);
    DoneNothing(lex, tags, strict);
    assert parts[..0] == [];
    var k := 0;
    while k < |parts|
      invariant 0 <= k <= |parts| && Done(lex, tags, parts[..k], strict, v)
    {
      v := CheckNext(lex, tags, parts, strict, v, k);
      k := k + 1;
    }
    assert parts[..k] == parts;
  }

  // ----- injected instructions

  function SignalsOf(lex: Lexicon, tags: map<Tag, Ref>, reported: set<string>): set<Signal> {
    (set n | n in reported :: Reported(n))
    + (set t | t in tags && lex.suspicious(TextOf(tags[t])) :: InEntry(t))
  }

  /** Some entry belongs to somebody else. */
  predicate Foreign(tags: map<Tag, Ref>, candidate: int) {
    exists t :: t in tags && tags[t].source.candidate != candidate
  }

  /** Scan the entries one by one, stopping at a foreign one. */
  method ScanEntries(lex: Lexicon, tags: map<Tag, Ref>, candidate: int, reported: set<string>) returns (signals: Option<set<Signal>>)
    ensures signals.None? <==> Foreign(tags, candidate)
    ensures signals.Some? ==> signals.value == SignalsOf(lex, tags, reported)
  {
    var found := set n | n in reported :: Reported(n);
    var rest := tags.Keys;
    while rest != {}
      invariant rest <= tags.Keys && forall t :: t in tags && t !in rest ==> tags[t].source.candidate == candidate
      invariant found == (set n | n in reported :: Reported(n))
                         + set t | t in tags && t !in rest && lex.suspicious(TextOf(tags[t])) :: InEntry(t)
      decreases |rest|
    {
      var t :| t in rest;
      if tags[t].source.candidate != candidate {
        return None;
      }
      if lex.suspicious(TextOf(tags[t])) {
        found := found + {InEntry(t)};
      }
      rest := rest - {t};
    }
    signals := Some(found);
  }

  /** The reasons for review that no part raises. */
  function GeneralIssues(tags: map<Tag, Ref>, complete: bool, signals: set<Signal>): set<Issue> {
    (if complete then {} else {ContextTruncated}) + (if signals == {} then {} else {InjectionSignal})
    + set c | c in CATEGORIES && NoEvidence(tags, c) :: MissingEvidence(c)
  }

  lemma GeneralAreRaised(lex: Lexicon, tags: map<Tag, Ref>, parts: seq<Part>, strict: bool, complete: bool,
                         signals: set<Signal>, issue: Issue)
    requires Lawful(lex)
    ensures issue in GeneralIssues(tags, complete, signals) || RaisedBy(lex, tags, parts, strict, issue)
       <==> Raised(lex, tags, parts, strict, complete, signals, issue)
  {
    if issue.MissingEvidence? {
      EveryCategory(issue.category);
    }
  }

  /** Nothing is verified against a registry with a foreign entry. */
  method VerifyEvidence(lex: Lexicon, tags: map<Tag, Ref>, candidate: int, parts: seq<Part>, reported: set<string>,
                        strict: bool, complete: bool)
    returns (r: Option<Report>)
    requires Lawful(lex) && InOrder(parts)
    ensures r.None? <==> Foreign(tags, candidate)
    ensures r.Some? ==>
      var v := r.value.verified;
      && r.value.signals == SignalsOf(lex, tags, reported)
      && v.checks == AllChecks(lex, tags, parts) && SoundFlags(lex, tags, parts, strict, v.flags)
      && forall issue :: issue in v.issues <==> Raised(lex, tags, parts, strict, complete, r.value.signals, issue)
  {
    var scanned := ScanEntries(lex, tags, candidate, reported);
    if scanned.None? {
      return None;
    }
    var signals := scanned.value;
    var v := CheckParts(lex, tags, parts, strict);
    forall issue
      ensures issue in v.issues + GeneralIssues(tags, complete, signals)
         <==> Raised(lex, tags, parts, strict, complete, signals, issue)
    {
      GeneralAreRaised(lex, tags, parts, strict, complete, signals, issue);
    }
    r := Some(Report(v.(issues := v.issues + GeneralIssues(tags, complete, signals)), signals));
  }
}
