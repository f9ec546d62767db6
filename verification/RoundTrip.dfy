/**
 * The round trip: select by handle, resolve to trusted text, verify against the registry. Every
 * check passes exactly when the handles exist, are of categories the field may cite, and stand for
 * sentences with a word character.
 */
module RoundTrip {
  import opened Prelude
  import opened Sentences
  import opened SentenceGroups
  import opened Manifest
  import opened Selection
  import opened Excerpt
  import opened Verification

  /** The handle exists; an assessment may cite its own category, a career gap experience, other flags anything. */
  predicate Citable(handles: map<Handle, Ref>, field: Field, h: Handle) {
    && h in handles
    && (field.CategoryField? ==> h.category == field.category)
    && (field.FlagField? && field.kind.CareerGap? ==> h.category == Experience)
  }

  predicate Worded(lex: Lexicon, handles: map<Handle, Ref>, h: Handle) {
    h in handles && lex.wordy(lex.normal(TextOf(handles[h])))
  }

  predicate Good(lex: Lexicon, handles: map<Handle, Ref>, choice: Choice) {
    forall h :: h in choice.citations ==> Citable(handles, choice.field, h) && Worded(lex, handles, h)
  }

  predicate GoodFlag(lex: Lexicon, handles: map<Handle, Ref>, choice: Choice) {
    choice.citations != [] && Good(lex, handles, choice)
  }

  lemma PartOfItself(text: string)
    ensures PartOf(text, text)
  {
    assert text[0..0 + |text|] == text;
    assert FoundAt(text, text, 0);
  }

  lemma TagsAreWellFormed(registry: seq<Ref>, tags: map<Tag, Ref>, t: Tag)
    requires Tagged(registry, tags) && t in tags
    ensures t.Tag? && t.n >= 1
  {
    assert Listed(registry, t);
    var i :| 0 <= i < |registry| && TagAt(registry, i) == t;
    assert registry[..i + 1][i] == registry[i];
  }

  // ----- one citation

  lemma CitationAt(registry: seq<Ref>, tags: map<Tag, Ref>, handles: map<Handle, Ref>, choice: Choice, part: Part, i: nat)
    requires Tagged(registry, tags) && WithinRegistry(registry, handles)
    requires ResolvesTo(tags, handles, choice, part) && i < |choice.citations|
    ensures CitationReason(tags, part.field, part.citations[i]).None?
       <==> Citable(handles, choice.field, choice.citations[i])
  {
    var h := choice.citations[i];
    if h in handles {
      assert CitesEntry(tags, handles[h], part.citations[i], part.claims[i]);
      TagsAreWellFormed(registry, tags, part.citations[i]);
    } else {
      assert CitesNothing(h, part.citations[i], part.claims[i]);
    }
  }

  lemma ClaimAt(lex: Lexicon, registry: seq<Ref>, tags: map<Tag, Ref>, handles: map<Handle, Ref>, choice: Choice, part: Part, i: nat)
    requires Lawful(lex) && Tagged(registry, tags) && WithinRegistry(registry, handles)
    requires ResolvesTo(tags, handles, choice, part) && i < |choice.citations|
    ensures ClaimReason(lex, tags, part, part.claims[i]).None?
       <==> Citable(handles, choice.field, choice.citations[i]) && Worded(lex, handles, choice.citations[i])
  {
    var h := choice.citations[i];
    assert part.citations[i] in part.citations;
    if h in handles {
      ClaimOfEntry(lex, tags, handles[h], part, part.claims[i]);
    } else {
      assert CitesNothing(h, part.citations[i], part.claims[i]);
      if part.citations[i] in tags {
        TagsAreWellFormed(registry, tags, part.citations[i]);
      }
    }
  }

  /** A claim in an entry's own words passes exactly when the field may cite it and it has a word character. */
  lemma ClaimOfEntry(lex: Lexicon, tags: map<Tag, Ref>, r: Ref, part: Part, claim: Claim)
    requires Lawful(lex) && claim.citation in part.citations && CitesEntry(tags, r, claim.citation, claim)
    ensures ClaimReason(lex, tags, part, claim).None?
       <==> Allows(part.field, r.source.category) && lex.wordy(lex.normal(TextOf(r)))
  {
    PartOfItself(lex.normal(TextOf(r)));
    WholeSentence(lex, TextOf(r));
  }

  // ----- one assessment or flag

  lemma PartPasses(lex: Lexicon, registry: seq<Ref>, tags: map<Tag, Ref>, handles: map<Handle, Ref>, choice: Choice, part: Part)
    requires Lawful(lex) && Tagged(registry, tags) && WithinRegistry(registry, handles)
    requires ResolvesTo(tags, handles, choice, part)
    ensures CitationsPass(tags, part) && ClaimsPass(lex, tags, part) <==> Good(lex, handles, choice)
    ensures Good(lex, handles, choice) ==> EveryCitationSupported(lex, tags, part)
  {
    if CitationsPass(tags, part) && ClaimsPass(lex, tags, part) {
      forall h | h in choice.citations ensures Citable(handles, choice.field, h) && Worded(lex, handles, h) {
        var i :| 0 <= i < |choice.citations| && choice.citations[i] == h;
        assert part.claims[i] in part.claims;
        ClaimAt(lex, registry, tags, handles, choice, part, i);
      }
    }
    if Good(lex, handles, choice) {
      GoodPasses(lex, registry, tags, handles, choice, part);
    }
  }

  lemma GoodPasses(lex: Lexicon, registry: seq<Ref>, tags: map<Tag, Ref>, handles: map<Handle, Ref>, choice: Choice, part: Part)
    requires Lawful(lex) && Tagged(registry, tags) && WithinRegistry(registry, handles)
    requires ResolvesTo(tags, handles, choice, part) && Good(lex, handles, choice)
    ensures CitationsPass(tags, part) && ClaimsPass(lex, tags, part) && EveryCitationSupported(lex, tags, part)
  {
    forall i | 0 <= i < |choice.citations|
      ensures CitationReason(tags, part.field, part.citations[i]).None?
      ensures ClaimReason(lex, tags, part, part.claims[i]).None?
    {
      assert choice.citations[i] in choice.citations;
      CitationAt(registry, tags, handles, choice, part, i);
      ClaimAt(lex, registry, tags, handles, choice, part, i);
    }
    GoodIsSupported(lex, tags, handles, choice, part);
  }

  lemma GoodIsSupported(lex: Lexicon, tags: map<Tag, Ref>, handles: map<Handle, Ref>, choice: Choice, part: Part)
    requires Lawful(lex) && ResolvesTo(tags, handles, choice, part)
    requires forall i :: 0 <= i < |choice.citations| ==> ClaimReason(lex, tags, part, part.claims[i]).None?
    ensures EveryCitationSupported(lex, tags, part)
  {
    forall t | t in part.citations ensures SupportedTag(lex, tags, part, t) {
      var i :| 0 <= i < |part.citations| && part.citations[i] == t;
      assert part.claims[i] in part.claims && part.claims[i].citation == t by {
        var h := choice.citations[i];
        assert if h in handles then CitesEntry(tags, handles[h], part.citations[i], part.claims[i])
               else CitesNothing(h, part.citations[i], part.claims[i]);
      }
    }
  }

  // ----- the whole selection

  ghost predicate AllValid(checks: seq<Check>) {
    forall c :: c in checks ==> c.reason.None?
  }

  lemma {:induction false} ChecksPass(lex: Lexicon, tags: map<Tag, Ref>, parts: seq<Part>)
    requires Lawful(lex)
    ensures AllValid(AllChecks(lex, tags, parts))
       <==> forall i :: 0 <= i < |parts| ==> CitationsPass(tags, parts[i]) && ClaimsPass(lex, tags, parts[i])
  {
    if parts != [] {
      var n := |parts| - 1;
      ChecksPass(lex, tags, parts[..n]);
      PartChecksPass(lex, tags, parts[n]);
      assert forall i :: 0 <= i < n ==> parts[..n][i] == parts[i];
      var before, last := AllChecks(lex, tags, parts[..n]), ChecksOf(lex, tags, parts[n]);
      BothValid(before, last);
    }
  }

  lemma BothValid(a: seq<Check>, b: seq<Check>)
    ensures AllValid(a + b) <==> AllValid(a) && AllValid(b)
  {
    if AllValid(a + b) {
      forall c | c in a || c in b ensures c.reason.None? {
        assert c in a + b;
      }
    }
  }

  lemma PartChecksPass(lex: Lexicon, tags: map<Tag, Ref>, part: Part)
    requires Lawful(lex)
    ensures AllValid(ChecksOf(lex, tags, part)) <==> CitationsPass(tags, part) && ClaimsPass(lex, tags, part)
  {
    var cited, claimed := Map(part.citations, CitationCheck(tags, part.field)), Map(part.claims, ClaimCheck(lex, tags, part));
    BothValid(cited, claimed);
    assert AllValid(cited) <==> CitationsPass(tags, part) by {
      if AllValid(cited) {
        forall t | t in part.citations ensures CitationReason(tags, part.field, t).None? {
          var i :| 0 <= i < |part.citations| && part.citations[i] == t;
          assert cited[i] in cited;
        }
      }
    }
    assert AllValid(claimed) <==> ClaimsPass(lex, tags, part) by {
      if AllValid(claimed) {
        forall c | c in part.claims ensures ClaimReason(lex, tags, part, c).None? {
          var i :| 0 <= i < |part.claims| && part.claims[i] == c;
          assert claimed[i] in claimed;
        }
      }
    }
  }

  ghost predicate AllGood(lex: Lexicon, handles: map<Handle, Ref>, choices: seq<Choice>) {
    forall i :: 0 <= i < |choices| ==> Good(lex, handles, choices[i])
  }

  /** Selected, resolved and verified: no check fails, if and only if every citation is good. */
  lemma SelectionRoundTrip(lex: Lexicon, registry: seq<Ref>, tags: map<Tag, Ref>, handles: map<Handle, Ref>,
                           choices: seq<Choice>, parts: seq<Part>)
    requires Lawful(lex) && Tagged(registry, tags) && WithinRegistry(registry, handles)
    requires AllResolve(tags, handles, choices, parts)
    ensures AllValid(AllChecks(lex, tags, parts)) <==> AllGood(lex, handles, choices)
  {
    ChecksPass(lex, tags, parts);
    forall i | 0 <= i < |parts|
      ensures CitationsPass(tags, parts[i]) && ClaimsPass(lex, tags, parts[i]) <==> Good(lex, handles, choices[i])
    {
      PartPasses(lex, registry, tags, handles, choices[i], parts[i]);
    }
  }

  /** A flag is verified exactly when it cites something and cites it well. */
  lemma FlagRoundTrip(lex: Lexicon, registry: seq<Ref>, tags: map<Tag, Ref>, handles: map<Handle, Ref>,
                      choice: Choice, part: Part, strict: bool)
    requires Lawful(lex) && Tagged(registry, tags) && WithinRegistry(registry, handles)
    requires ResolvesTo(tags, handles, choice, part)
    ensures Sound(lex, tags, part, strict) <==> GoodFlag(lex, handles, choice)
  {
    PartPasses(lex, registry, tags, handles, choice, part);
  }

  /** One part raises nothing exactly when it cites something and cites it well. */
  lemma PartRaisesNothing(lex: Lexicon, registry: seq<Ref>, tags: map<Tag, Ref>, handles: map<Handle, Ref>,
                          choice: Choice, part: Part, strict: bool)
    requires Lawful(lex) && Tagged(registry, tags) && WithinRegistry(registry, handles)
    requires ResolvesTo(tags, handles, choice, part)
    ensures (forall issue :: !Raises(lex, tags, part, strict, issue)) <==> choice.citations != [] && Good(lex, handles, choice)
  {
    PartPasses(lex, registry, tags, handles, choice, part);
    if !(choice.citations != [] && Good(lex, handles, choice)) {
      assert Raises(lex, tags, part, strict, MissingCitations(part.field))
          || Raises(lex, tags, part, strict, InvalidCitations(part.field))
          || Raises(lex, tags, part, strict, UnsupportedClaim(part.field));
    }
  }

  /** Nothing is left to review exactly when nothing is missing and every citation is good. */
  lemma NothingToReview(lex: Lexicon, registry: seq<Ref>, tags: map<Tag, Ref>, handles: map<Handle, Ref>,
                        choices: seq<Choice>, parts: seq<Part>, strict: bool, complete: bool, signals: set<Signal>)
    requires Lawful(lex) && Tagged(registry, tags) && WithinRegistry(registry, handles)
    requires AllResolve(tags, handles, choices, parts)
    ensures (forall issue :: !Raised(lex, tags, parts, strict, complete, signals, issue))
       <==> complete && signals == {} && (forall c :: !NoEvidence(tags, c)) && AllGood(lex, handles, choices)
            && forall i :: 0 <= i < |choices| ==> choices[i].citations != []
  {
    forall i | 0 <= i < |parts|
      ensures (forall issue :: !Raises(lex, tags, parts[i], strict, issue))
         <==> choices[i].citations != [] && Good(lex, handles, choices[i])
    {
      PartRaisesNothing(lex, registry, tags, handles, choices[i], parts[i], strict);
    }
    if forall issue :: !Raised(lex, tags, parts, strict, complete, signals, issue) {
      assert !Raised(lex, tags, parts, strict, complete, signals, ContextTruncated);
      assert !Raised(lex, tags, parts, strict, complete, signals, InjectionSignal);
      forall c ensures !NoEvidence(tags, c) {
        assert !Raised(lex, tags, parts, strict, complete, signals, MissingEvidence(c));
      }
      forall i, issue | 0 <= i < |parts| ensures !Raises(lex, tags, parts[i], strict, issue) {
        assert !Raised(lex, tags, parts, strict, complete, signals, issue);
      }
    }
  }

  /** The four assessments, then the flags. */
  ghost predicate ChoicesInOrder(choices: seq<Choice>) {
    && |choices| >= |CATEGORIES|
    && (forall i :: 0 <= i < |CATEGORIES| ==> choices[i].field == CategoryField(CATEGORIES[i]))
    && (forall i :: |CATEGORIES| <= i < |choices| ==> choices[i].field.FlagField? && choices[i].field.index == i - |CATEGORIES|)
  }

  /** The verified flags are those that cite something and cite it well. */
  ghost predicate GoodFlags(lex: Lexicon, handles: map<Handle, Ref>, choices: seq<Choice>, flags: seq<nat>) {
    forall n: nat :: n in flags <==>
      n < |choices| - |CATEGORIES| && GoodFlag(lex, handles, choices[|CATEGORIES| + n])
  }

  lemma FlagsAreGood(lex: Lexicon, registry: seq<Ref>, tags: map<Tag, Ref>, handles: map<Handle, Ref>,
                     choices: seq<Choice>, parts: seq<Part>, strict: bool, flags: seq<nat>)
    requires Lawful(lex) && Tagged(registry, tags) && WithinRegistry(registry, handles)
    requires AllResolve(tags, handles, choices, parts) && SoundFlags(lex, tags, parts, strict, flags)
    ensures GoodFlags(lex, handles, choices, flags)
  {
    forall n: nat ensures n in flags <==>
        n < |choices| - |CATEGORIES| && GoodFlag(lex, handles, choices[|CATEGORIES| + n])
    {
      if n < |choices| - |CATEGORIES| {
        FlagAt(lex, registry, tags, handles, choices, parts, strict, |CATEGORIES| + n);
      }
    }
  }

  lemma FlagAt(lex: Lexicon, registry: seq<Ref>, tags: map<Tag, Ref>, handles: map<Handle, Ref>,
               choices: seq<Choice>, parts: seq<Part>, strict: bool, k: nat)
    requires Lawful(lex) && Tagged(registry, tags) && WithinRegistry(registry, handles)
    requires AllResolve(tags, handles, choices, parts) && k < |choices|
    ensures Sound(lex, tags, parts[k], strict) <==> GoodFlag(lex, handles, choices[k])
  {
    FlagRoundTrip(lex, registry, tags, handles, choices[k], parts[k], strict);
  }

  lemma PartsInOrder(tags: map<Tag, Ref>, handles: map<Handle, Ref>, choices: seq<Choice>, parts: seq<Part>)
    requires ChoicesInOrder(choices) && AllResolve(tags, handles, choices, parts)
    ensures InOrder(parts)
  {
    forall i | 0 <= i < |parts| ensures parts[i].field == choices[i].field {
      assert ResolvesTo(tags, handles, choices[i], parts[i]);
    }
  }

  lemma NothingForeign(registry: seq<Ref>, tags: map<Tag, Ref>, candidate: int)
    requires Tagged(registry, tags) && forall e :: e in registry ==> e.source.candidate == candidate
    ensures !Foreign(tags, candidate)
  {
    forall t | t in tags ensures tags[t].source.candidate == candidate {
      assert Listed(registry, t);
      var i :| 0 <= i < |registry| && TagAt(registry, i) == t;
      assert registry[i] in registry;
    }
  }

  /** What an accepted selection gets: its checks, its flags, and a clean bill exactly when all is well. */
  ghost predicate Reviewed(lex: Lexicon, tags: map<Tag, Ref>, selection: Selection, complete: bool, report: Report) {
    var handles, choices, v := selection.scope.handles, selection.choices, report.verified;
    && (AllValid(v.checks) <==> AllGood(lex, handles, choices))
    && GoodFlags(lex, handles, choices, v.flags)
    && (v.issues == {} <==>
          complete && report.signals == {} && (forall c :: !NoEvidence(tags, c)) && AllGood(lex, handles, choices)
          && forall i :: 0 <= i < |choices| ==> choices[i].citations != [])
  }

  /**
   * From registry to review: tag the entries, resolve the selection, verify the result. An accepted
   * selection passes every check if and only if it cites well under the handles its scope names.
   */
  method ReviewSelection(contains: Contains, lex: Lexicon, selection: Selection, registry: seq<Ref>, candidate: int,
                         reported: set<string>, strict: bool, complete: bool)
    returns (r: Resolution, tags: map<Tag, Ref>, report: Option<Report>)
    requires Lawful(lex) && SameSignature(registry) && ChoicesInOrder(selection.choices)
    ensures r.WrongOwner? <==> exists e :: e in registry && e.source.candidate != candidate
    ensures r.ScopeMismatch? <==> !r.WrongOwner? && selection.scope != ScopeOf(contains, registry, candidate)
    ensures Tagged(registry, tags) && (r.Resolved? <==> report.Some?)
    ensures report.Some? ==> report.value.signals == SignalsOf(lex, tags, reported)
    ensures report.Some? ==> Reviewed(lex, tags, selection, complete, report.value)
  {
    report := None;
    tags := TagEntries(registry);
    r := ResolveCompactSelection(contains, selection, registry, tags, candidate);
    if r.Resolved? {
      var handles, choices := selection.scope.handles, selection.choices;
      PartsInOrder(tags, handles, choices, r.parts);
      NothingForeign(registry, tags, candidate);
      report := VerifyEvidence(lex, tags, candidate, r.parts, reported, strict, complete);
      ReviewHolds(lex, registry, tags, selection, r.parts, strict, complete, report.value);
    }
  }

  lemma ReviewHolds(lex: Lexicon, registry: seq<Ref>, tags: map<Tag, Ref>, selection: Selection, parts: seq<Part>,
                    strict: bool, complete: bool, report: Report)
    requires Lawful(lex) && Tagged(registry, tags) && WithinRegistry(registry, selection.scope.handles)
    requires AllResolve(tags, selection.scope.handles, selection.choices, parts)
    requires report.verified.checks == AllChecks(lex, tags, parts)
    requires SoundFlags(lex, tags, parts, strict, report.verified.flags)
    requires forall issue :: issue in report.verified.issues <==> Raised(lex, tags, parts, strict, complete, report.signals, issue)
    ensures Reviewed(lex, tags, selection, complete, report)
  {
    var handles, choices := selection.scope.handles, selection.choices;
    SelectionRoundTrip(lex, registry, tags, handles, choices, parts);
    FlagsAreGood(lex, registry, tags, handles, choices, parts, strict, report.verified.flags);
    NothingToReview(lex, registry, tags, handles, choices, parts, strict, complete, report.signals);
    assert report.verified.issues == {} <==> forall issue :: issue !in report.verified.issues;
  }
}
