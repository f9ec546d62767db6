/**
 * Evidence pruning: of every query's hits only the reranked ones and the best per target are kept,
 * and still each target's coverage, and so every score, is what scoring all hits would give.
 */
module Evidence {
  import opened Prelude
  import opened Coverage
  import opened Scoring
  import opened Targets
  import Ranking

  /** What one query returns: the fused hits, and those the reranker puts first. */
  datatype Round = Round(hits: seq<Chunk>, ranked: seq<Chunk>)

  // ----- one round

  function Worth(lex: Lexicon, t: Target, c: Chunk): real
    requires t.groups != []
  {
    Assess(lex, t, [c]).coverage
  }

  /** The first hit of greatest worth. */
  function BestHit(lex: Lexicon, t: Target, hits: seq<Chunk>): Chunk
    requires t.groups != [] && hits != []
  {
    if |hits| == 1 then hits[0]
    else
      var before, last := BestHit(lex, t, hits[..|hits| - 1]), hits[|hits| - 1];
      if Worth(lex, t, last) > Worth(lex, t, before) then last else before
  }

  predicate Kept(existing: seq<Chunk>, id: int) {
    exists i :: 0 <= i < |existing| && existing[i].id == id
  }

  predicate DistinctIds(chunks: seq<Chunk>) {
    forall i, j :: 0 <= i < j < |chunks| ==> chunks[i].id != chunks[j].id
  }

  /** Append the chunks whose id is new, one by one. */
  function Add(existing: seq<Chunk>, selected: seq<Chunk>): seq<Chunk> {
    if selected == [] then existing
    else
      var before, last := Add(existing, selected[..|selected| - 1]), selected[|selected| - 1];
      if Kept(before, last.id) then before else before + [last]
  }

  /** The ranked hits, and for each target the best hit if it is worth anything. */
  function Selected(lex: Lexicon, round: Round, ts: seq<Target>): seq<Chunk>
    requires ValidTargets(ts)
  {
    if ts == [] then round.ranked
    else
      var before, t := Selected(lex, round, ts[..|ts| - 1]), ts[|ts| - 1];
      if round.hits != [] && Worth(lex, t, BestHit(lex, t, round.hits)) > 0.0
      then before + [BestHit(lex, t, round.hits)] else before
  }

  function Retain(lex: Lexicon, existing: seq<Chunk>, round: Round, ts: seq<Target>): seq<Chunk>
    requires ValidTargets(ts)
  {
    Add(existing, Selected(lex, round, ts))
  }

  function RetainAll(lex: Lexicon, rounds: seq<Round>, ts: seq<Target>): seq<Chunk>
    requires ValidTargets(ts)
  {
    if rounds == [] then []
    else Retain(lex, RetainAll(lex, rounds[..|rounds| - 1], ts), rounds[|rounds| - 1], ts)
  }

  function AllHits(rounds: seq<Round>): seq<Chunk> {
    if rounds == [] then [] else AllHits(rounds[..|rounds| - 1]) + rounds[|rounds| - 1].hits
  }

  /** The first of the hits that cover the target best, and cover it at all. */
  ghost predicate BestFor(lex: Lexicon, t: Target, hits: seq<Chunk>, c: Chunk)
    requires t.groups != []
  {
    exists k :: 0 <= k < |hits| && hits[k] == c && FirstBest(lex, t, hits, k)
  }

  ghost predicate FirstBest(lex: Lexicon, t: Target, hits: seq<Chunk>, k: nat)
    requires t.groups != [] && k < |hits|
  {
    && Assess(lex, t, [hits[k]]).coverage > 0.0
    && (forall m :: 0 <= m < |hits| ==> Assess(lex, t, [hits[m]]).coverage <= Assess(lex, t, [hits[k]]).coverage)
    && (forall m :: 0 <= m < k ==> Assess(lex, t, [hits[m]]).coverage < Assess(lex, t, [hits[k]]).coverage)
  }

  ghost predicate BestForSome(lex: Lexicon, ts: seq<Target>, hits: seq<Chunk>, c: Chunk)
    requires ValidTargets(ts)
  {
    exists i :: 0 <= i < |ts| && BestFor(lex, ts[i], hits, c)
  }

  lemma {:induction false} BestHitIsFirst(lex: Lexicon, t: Target, hits: seq<Chunk>) returns (k: nat)
    requires t.groups != [] && hits != []
    ensures k < |hits| && BestHit(lex, t, hits) == hits[k]
    ensures forall m :: 0 <= m < |hits| ==> Worth(lex, t, hits[m]) <= Worth(lex, t, hits[k])
    ensures forall m :: 0 <= m < k ==> Worth(lex, t, hits[m]) < Worth(lex, t, hits[k])
  {
    var n := |hits| - 1;
    if n == 0 {
      k := 0;
    } else {
      k := BestHitIsFirst(lex, t, hits[..n]);
      assert forall m :: 0 <= m < n ==> hits[..n][m] == hits[m];
      if Worth(lex, t, hits[n]) > Worth(lex, t, hits[k]) {
        k := n;
      }
    }
  }

  lemma BestHitMeans(lex: Lexicon, t: Target, hits: seq<Chunk>, c: Chunk)
    requires t.groups != []
    ensures BestFor(lex, t, hits, c) <==> hits != [] && c == BestHit(lex, t, hits) && Worth(lex, t, c) > 0.0
  {
    if hits != [] {
      var k := BestHitIsFirst(lex, t, hits);
      if Worth(lex, t, hits[k]) > 0.0 {
        assert FirstBest(lex, t, hits, k);
      }
      if BestFor(lex, t, hits, c) {
        var j :| 0 <= j < |hits| && hits[j] == c && FirstBest(lex, t, hits, j);
        assert j == k;
      }
    }
  }

  lemma SomeMore(lex: Lexicon, ts: seq<Target>, hits: seq<Chunk>, c: Chunk)
    requires ValidTargets(ts) && ts != []
    ensures BestForSome(lex, ts, hits, c) <==>
              BestForSome(lex, ts[..|ts| - 1], hits, c) || BestFor(lex, ts[|ts| - 1], hits, c)
  {
    var n := |ts| - 1;
    forall i | 0 <= i < n ensures BestFor(lex, ts[i], hits, c) <==> BestFor(lex, ts[..n][i], hits, c) {
      assert ts[..n][i] == ts[i];
    }
  }

  /** Besides the ranked hits, what is selected is the best hit for some target. */
  lemma {:induction false} SelectedExactly(lex: Lexicon, round: Round, ts: seq<Target>, c: Chunk)
    requires ValidTargets(ts)
    ensures c in Selected(lex, round, ts) <==> c in round.ranked || BestForSome(lex, ts, round.hits, c)
  {
    if ts != [] {
      var n := |ts| - 1;
      SelectedExactly(lex, round, ts[..n], c);
      SomeMore(lex, ts, round.hits, c);
      BestHitMeans(lex, ts[n], round.hits, c);
    }
  }

  // ----- the loops

  method BestOf(lex: Lexicon, t: Target, hits: seq<Chunk>) returns (best: Chunk)
    requires t.groups != [] && hits != []
    ensures best == BestHit(lex, t, hits)
  {
    best := hits[0];
    var i := 1;
    assert hits[..1] == [hits[0]];
    while i < |hits|
      invariant 1 <= i <= |hits| && best == BestHit(lex, t, hits[..i])
    {
      assert hits[..i + 1][..i] == hits[..i];
      var worth := AssessTarget(lex, t, [hits[i]]);
      var known := AssessTarget(lex, t, [best]);
      if worth.coverage > known.coverage {
        best := hits[i];
      }
      i := i + 1;
    }
    assert hits[..i] == hits;
  }

  method RetainEvidence(lex: Lexicon, existing: seq<Chunk>, round: Round, ts: seq<Target>) returns (kept: seq<Chunk>)
    requires ValidTargets(ts)
    ensures kept == Retain(lex, existing, round, ts)
    ensures existing <= kept
    ensures forall c :: c in kept ==> c in existing || c in Selected(lex, round, ts)
    ensures DistinctIds(existing) ==> DistinctIds(kept)
    ensures forall c :: c in Selected(lex, round, ts) ==> Kept(kept, c.id)
    ensures forall c :: c in kept ==> c in existing || c in round.ranked || BestForSome(lex, ts, round.hits, c)
    ensures forall c :: c in round.ranked || BestForSome(lex, ts, round.hits, c) ==> Kept(kept, c.id)
  {
    forall c ensures c in Selected(lex, round, ts) <==> c in round.ranked || BestForSome(lex, ts, round.hits, c) {
      SelectedExactly(lex, round, ts, c);
    }
    var selected := round.ranked;
    var i := 0;
    while i < |ts|
      invariant 0 <= i <= |ts| && selected == Selected(lex, round, ts[..i])
    {
      assert ts[..i + 1][..i] == ts[..i];
      if round.hits != [] {
        var best := BestOf(lex, ts[i], round.hits);
        var assessment := AssessTarget(lex, ts[i], [best]);
        if assessment.coverage > 0.0 {
          selected := selected + [best];
        }
      }
      i := i + 1;
    }
    assert ts[..i] == ts;
    kept := existing;
    var known := set c | c in existing :: c.id;
    KnownStart(existing);
    var k := 0;
    while k < |selected|
      invariant 0 <= k <= |selected| && kept == Add(existing, selected[..k])
      invariant forall id :: id in known <==> Kept(kept, id)
    {
      assert selected[..k + 1][..k] == selected[..k];
      if selected[k].id !in known {
        KnownNext(kept, selected[k]);
        kept := kept + [selected[k]];
        known := known + {selected[k].id};
      }
      k := k + 1;
    }
    assert selected[..k] == selected;
    AddIs(existing, selected);
    AddExtends(existing, selected);
  }

  lemma KnownStart(existing: seq<Chunk>)
    ensures forall id :: id in (set c | c in existing :: c.id) <==> Kept(existing, id)
  {
    forall id | Kept(existing, id) ensures id in set c | c in existing :: c.id {
      var i :| 0 <= i < |existing| && existing[i].id == id;
      assert existing[i] in existing;
    }
  }

  lemma KnownNext(kept: seq<Chunk>, c: Chunk)
    ensures forall id :: Kept(kept + [c], id) <==> Kept(kept, id) || id == c.id
  {
    forall id ensures Kept(kept + [c], id) <==> Kept(kept, id) || id == c.id {
      if Kept(kept, id) {
        var i :| 0 <= i < |kept| && kept[i].id == id;
        assert (kept + [c])[i].id == id;
      }
      if id == c.id {
        assert (kept + [c])[|kept|].id == id;
      }
    }
  }

  method CollectEvidence(lex: Lexicon, rounds: seq<Round>, ts: seq<Target>) returns (kept: seq<Chunk>)
    requires ValidTargets(ts)
    ensures kept == RetainAll(lex, rounds, ts)
  {
    kept := [];
    var i := 0;
    while i < |rounds|
      invariant 0 <= i <= |rounds| && kept == RetainAll(lex, rounds[..i], ts)
    {
      assert rounds[..i + 1][..i] == rounds[..i];
      kept := RetainEvidence(lex, kept, rounds[i], ts);
      i := i + 1;
    }
    assert rounds[..i] == rounds;
  }

  // ----- pruning preserves coverage

  /** An id stands for one passage, and the reranker returns hits. */
  ghost predicate Consistent(rounds: seq<Round>) {
    && (forall a, b :: a in AllHits(rounds) && b in AllHits(rounds) && a.id == b.id ==> a == b)
    && (forall i :: 0 <= i < |rounds| ==> forall c :: c in rounds[i].ranked ==> c in rounds[i].hits)
  }

  lemma {:induction false} BestHitIsBest(lex: Lexicon, t: Target, hits: seq<Chunk>)
    requires t.groups != [] && hits != []
    ensures BestHit(lex, t, hits) in hits
    ensures forall c :: c in hits ==> Worth(lex, t, c) <= Worth(lex, t, BestHit(lex, t, hits))
  {
    var n := |hits| - 1;
    if n > 0 {
      BestHitIsBest(lex, t, hits[..n]);
      assert hits == hits[..n] + [hits[n]];
      assert BestHit(lex, t, hits[..n]) in hits;
    }
  }

  lemma {:induction false} SelectedAre(lex: Lexicon, round: Round, ts: seq<Target>)
    requires ValidTargets(ts) && forall c :: c in round.ranked ==> c in round.hits
    ensures forall c :: c in Selected(lex, round, ts) ==> c in round.hits
    ensures round.hits != [] ==>
              forall i :: 0 <= i < |ts| && Worth(lex, ts[i], BestHit(lex, ts[i], round.hits)) > 0.0 ==>
                BestHit(lex, ts[i], round.hits) in Selected(lex, round, ts)
  {
    if ts != [] {
      var n := |ts| - 1;
      SelectedAre(lex, round, ts[..n]);
      if round.hits != [] {
        BestHitIsBest(lex, ts[n], round.hits);
        forall i | 0 <= i < |ts| && Worth(lex, ts[i], BestHit(lex, ts[i], round.hits)) > 0.0
          ensures BestHit(lex, ts[i], round.hits) in Selected(lex, round, ts)
        {
          if i < n {
            assert ts[..n][i] == ts[i];
          }
        }
      }
    }
  }

  /** Adding keeps what is there, adds only selected chunks, and knows every selected id. */
  lemma {:induction false} AddIs(existing: seq<Chunk>, selected: seq<Chunk>)
    ensures forall c :: c in existing ==> c in Add(existing, selected)
    ensures forall c :: c in Add(existing, selected) ==> c in existing || c in selected
    ensures forall c :: c in selected ==> Kept(Add(existing, selected), c.id)
  {
    if selected != [] {
      var n := |selected| - 1;
      var before, after := Add(existing, selected[..n]), Add(existing, selected);
      AddIs(existing, selected[..n]);
      KnownNext(before, selected[n]);
      assert selected == selected[..n] + [selected[n]];
    }
  }

  /** Adding leaves what is there in its place and brings in no id twice. */
  lemma {:induction false} AddExtends(existing: seq<Chunk>, selected: seq<Chunk>)
    ensures existing <= Add(existing, selected)
    ensures DistinctIds(existing) ==> DistinctIds(Add(existing, selected))
  {
    if selected != [] {
      AddExtends(existing, selected[..|selected| - 1]);
    }
  }

  lemma Prefix(rounds: seq<Round>)
    requires rounds != [] && Consistent(rounds)
    ensures Consistent(rounds[..|rounds| - 1])
  {
    assert forall c :: c in AllHits(rounds[..|rounds| - 1]) ==> c in AllHits(rounds);
  }

  lemma {:induction false} KeptAreHits(lex: Lexicon, rounds: seq<Round>, ts: seq<Target>)
    requires ValidTargets(ts) && Consistent(rounds)
    ensures forall c :: c in RetainAll(lex, rounds, ts) ==> c in AllHits(rounds)
  {
    if rounds != [] {
      var n := |rounds| - 1;
      Prefix(rounds);
      KeptAreHits(lex, rounds[..n], ts);
      SelectedAre(lex, rounds[n], ts);
      AddIs(RetainAll(lex, rounds[..n], ts), Selected(lex, rounds[n], ts));
    }
  }

  /** For each hit ever returned something kept is worth at least as much to the target. */
  lemma {:induction false} NothingLost(lex: Lexicon, rounds: seq<Round>, ts: seq<Target>, i: nat, c: Chunk)
    requires ValidTargets(ts) && Consistent(rounds) && i < |ts| && c in AllHits(rounds)
    requires Worth(lex, ts[i], c) > 0.0
    ensures exists k :: k in RetainAll(lex, rounds, ts) && Worth(lex, ts[i], c) <= Worth(lex, ts[i], k)
  {
    var n := |rounds| - 1;
    var before, last := RetainAll(lex, rounds[..n], ts), rounds[n];
    var selected := Selected(lex, last, ts);
    Prefix(rounds);
    SelectedAre(lex, last, ts);
    AddIs(before, selected);
    if c in AllHits(rounds[..n]) {
      NothingLost(lex, rounds[..n], ts, i, c);
    } else {
      var best := BestHit(lex, ts[i], last.hits);
      BestHitIsBest(lex, ts[i], last.hits);
      assert Kept(RetainAll(lex, rounds, ts), best.id);
      KeptAreHits(lex, rounds, ts);
      var m :| 0 <= m < |RetainAll(lex, rounds, ts)| && RetainAll(lex, rounds, ts)[m].id == best.id;
      assert RetainAll(lex, rounds, ts)[m] in RetainAll(lex, rounds, ts);
      assert RetainAll(lex, rounds, ts)[m] == best;
    }
  }

  /** Over any sequence of queries, a target is covered by what is kept as well as by every hit returned. */
  lemma PruningPreservesCoverage(lex: Lexicon, rounds: seq<Round>, ts: seq<Target>, i: nat)
    requires ValidTargets(ts) && Consistent(rounds) && i < |ts|
    ensures Assess(lex, ts[i], RetainAll(lex, rounds, ts)).coverage == Assess(lex, ts[i], AllHits(rounds)).coverage
  {
    var kept, all, t := RetainAll(lex, rounds, ts), AllHits(rounds), ts[i];
    CoverageByChunk(lex, t, kept);
    CoverageByChunk(lex, t, all);
    KeptAreHits(lex, rounds, ts);
    AssessOk(lex, t, kept);
    AssessOk(lex, t, all);
    if Assess(lex, t, all).coverage > 0.0 {
      var c :| c in all && Worth(lex, t, c) == Assess(lex, t, all).coverage;
      NothingLost(lex, rounds, ts, i, c);
    }
    if Assess(lex, t, kept).coverage > 0.0 {
      var k :| k in kept && Worth(lex, t, k) == Assess(lex, t, kept).coverage;
      assert k in all;
    }
  }

  // ----- a whole candidate

  function InCategory(c: Category): Target -> bool {
    (t: Target) => t.category == c
  }

  lemma {:induction false} FilterKeepsValid(ts: seq<Target>, p: Target -> bool)
    requires ValidTargets(ts)
    ensures ValidTargets(Filter(ts, p))
  {
    if ts != [] {
      FilterKeepsValid(ts[..|ts| - 1], p);
    }
  }

  /** What one category keeps, and everything its queries returned. */
  ghost predicate PrunedIn(lex: Lexicon, ts: seq<Target>, c: Category, rounds: seq<Round>, kept: seq<Chunk>, all: seq<Chunk>)
    requires ValidTargets(ts)
  {
    && Consistent(rounds) && all == AllHits(rounds)
    && (FilterKeepsValid(ts, InCategory(c)); kept == RetainAll(lex, rounds, Filter(ts, InCategory(c))))
  }

  ghost predicate Pruned(lex: Lexicon, ts: seq<Target>, rounds: Category -> seq<Round>,
                         kept: Category -> seq<Chunk>, all: Category -> seq<Chunk>)
    requires ValidTargets(ts)
  {
    forall c: Category :: PrunedIn(lex, ts, c, rounds(c), kept(c), all(c))
  }

  lemma CoveragePreserved(lex: Lexicon, ts: seq<Target>, rounds: Category -> seq<Round>,
                          kept: Category -> seq<Chunk>, all: Category -> seq<Chunk>, i: nat)
    requires ValidTargets(ts) && Pruned(lex, ts, rounds, kept, all) && i < |ts|
    ensures Assess(lex, ts[i], kept(ts[i].category)).coverage == Assess(lex, ts[i], all(ts[i].category)).coverage
  {
    var c := ts[i].category;
    var own := Filter(ts, InCategory(c));
    assert PrunedIn(lex, ts, c, rounds(c), kept(c), all(c));
    FilterKeepsValid(ts, InCategory(c));
    FilterMembers(ts, InCategory(c));
    assert ts[i] in own;
    var k: nat :| k < |own| && own[k] == ts[i];
    PruningPreservesCoverage(lex, rounds(c), own, k);
  }

  /**
   * Scoring the kept evidence is scoring every hit: coverages, category scores, composite score,
   * eligibility and all the rest.
   */
  lemma PruningPreservesScores(lex: Lexicon, ts: seq<Target>, policy: Policy, rounds: Category -> seq<Round>,
                               kept: Category -> seq<Chunk>, all: Category -> seq<Chunk>)
    requires ValidTargets(ts) && (forall i :: 0 <= i < |ts| ==> Resolved(ts[i]))
    requires Pruned(lex, ts, rounds, kept, all)
    ensures Coverages(Assessments(lex, ts, kept)) == Coverages(Assessments(lex, ts, all))
    ensures Score(ts, Assessments(lex, ts, kept), policy) == Score(ts, Assessments(lex, ts, all), policy)
  {
    var rs, rs' := Assessments(lex, ts, kept), Assessments(lex, ts, all);
    forall i | 0 <= i < |ts| ensures rs[i].coverage == rs'[i].coverage && (Supported(rs[i]) <==> Supported(rs'[i])) {
      CoveragePreserved(lex, ts, rounds, kept, all, i);
      SupportIsCoverage(lex, ts[i], kept(ts[i].category));
      SupportIsCoverage(lex, ts[i], all(ts[i].category));
    }
    assert Coverages(rs) == Coverages(rs');
    SameSupport(ts, rs, rs');
  }

  lemma SameSupport(ts: seq<Target>, rs: seq<Assessment>, rs': seq<Assessment>)
    requires |rs| == |ts| == |rs'|
    requires forall i :: 0 <= i < |ts| ==> (Supported(rs[i]) <==> Supported(rs'[i]))
    ensures AppliedSupported(ts, rs) <==> AppliedSupported(ts, rs')
  {
  }

  /** All queries of one category. */
  method CollectCategory(lex: Lexicon, ts: seq<Target>, c: Category, rounds: seq<Round>) returns (kept: seq<Chunk>)
    requires ValidTargets(ts) && Consistent(rounds)
    ensures PrunedIn(lex, ts, c, rounds, kept, AllHits(rounds))
  {
    FilterKeepsValid(ts, InCategory(c));
    kept := CollectEvidence(lex, rounds, Filter(ts, InCategory(c)));
  }

  function HitsOf(rounds: Category -> seq<Round>): Category -> seq<Chunk> {
    (c: Category) => AllHits(rounds(c))
  }

  function PerCategory(skills: seq<Chunk>, experience: seq<Chunk>, projects: seq<Chunk>, education: seq<Chunk>): Category -> seq<Chunk> {
    (c: Category) =>
      match c
      case Skills => skills
      case Experience => experience
      case Projects => projects
      case Education => education
  }

  method CollectAll(lex: Lexicon, ts: seq<Target>, rounds: Category -> seq<Round>) returns (kept: Category -> seq<Chunk>)
    requires ValidTargets(ts) && forall c: Category :: Consistent(rounds(c))
    ensures Pruned(lex, ts, rounds, kept, HitsOf(rounds))
  {
    var skills := CollectCategory(lex, ts, Skills, rounds(Skills));
    var experience := CollectCategory(lex, ts, Experience, rounds(Experience));
    var projects := CollectCategory(lex, ts, Projects, rounds(Projects));
    var education := CollectCategory(lex, ts, Education, rounds(Education));
    kept := PerCategory(skills, experience, projects, education);
    forall c: Category ensures PrunedIn(lex, ts, c, rounds(c), kept(c), HitsOf(rounds)(c)) {
      match c {
        case Skills =>
        case Experience =>
        case Projects =>
        case Education =>
      }
    }
  }

  /**
   * From contract to score: whatever the queries return, pruning as it goes costs a candidate nothing.
   * The result is the score of every hit ever returned, eligibility included.
   */
  method ScoreCandidate(lex: Lexicon, contract: seq<Approval>, degree: Option<Degree>, mentioned: string -> bool,
                        required: seq<Cluster>, preferred: seq<Cluster>, query: Category -> seq<seq<string>>,
                        policy: Policy, rounds: Category -> seq<Round>)
    returns (ts: seq<Target>, scored: Scored)
    requires ValidContract(contract) && forall c: Category :: Consistent(rounds(c))
    ensures ValidTargets(ts) && scored == Score(ts, Assessments(lex, ts, HitsOf(rounds)), policy)
  {
    ts := ResolveTargets(contract, degree, mentioned, required, preferred, query);
    var kept := CollectAll(lex, ts, rounds);
    scored := ScoreCoverage(lex, ts, kept, policy);
    PruningPreservesScores(lex, ts, policy, rounds, kept, HitsOf(rounds));
  }

  // ----- the payload the ranking reads

  function Payload(ts: seq<Target>, rs: seq<Assessment>, policy: Policy): Ranking.Evidence
    requires |rs| == |ts|
  {
    var scored := Score(ts, rs, policy);
    Ranking.Evidence(scored.composite, scored.responsibility, scored.applied, true, scored.eligible, None)
  }

  /** The ranking's own test accepts exactly the payloads scored as eligible. */
  lemma EligiblePayloads(lex: Lexicon, ts: seq<Target>, policy: Policy, evidence: Category -> seq<Chunk>)
    requires ValidTargets(ts) && ValidPolicy(policy)
    ensures var rs := Assessments(lex, ts, evidence);
      Ranking.Eligible(Payload(ts, rs, policy)) <==> Scoring.Eligible(ts, rs, policy)
  {
    MoreEvidenceNeverHurts(lex, ts, policy, evidence, evidence);
  }
}
