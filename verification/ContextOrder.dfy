/**
 * What the arrangement of passages means: which come first, that the rest follows round by round, and
 * under which categories the added ones end up listed.
 */
module ContextOrder {
  import opened Prelude
  import opened Sorting
  import opened Context
  import opened ContextAssembly

  function CatAt(cats: seq<nat>, k: nat): nat {
    if k < |cats| then cats[k] else 0
  }

  function IsCat(q: nat): nat -> bool {
    (c: nat) => c == q
  }

  /** The round that takes passage `k`: as many passages of its category stand before it. */
  function Round(cats: seq<nat>, k: nat): nat {
    if k < |cats| then Count(cats[..k], IsCat(cats[k])) else 0
  }

  /** The earlier round first, and in one round the category whose queue comes first. */
  function ByRound(cats: seq<nat>): (nat, nat) -> bool {
    (x: nat, y: nat) =>
      Round(cats, x) < Round(cats, y) || (Round(cats, x) == Round(cats, y) && CatAt(cats, x) < CatAt(cats, y))
  }

  lemma AppendChain<T(!new)>(xs: seq<T>, ys: seq<T>, r: (T, T) -> bool)
    requires SortedBy(xs, r) && SortedBy(ys, r)
    requires forall x, y :: x in xs && y in ys ==> r(x, y)
    ensures SortedBy(xs + ys, r)
  {
    forall i, j | 0 <= i < j < |xs + ys| ensures r((xs + ys)[i], (xs + ys)[j]) {
      if i < |xs| && |xs| <= j {
        assert xs[i] in xs && ys[j - |xs|] in ys;
      }
    }
  }

  // ----- rounds

  /** Before round `d`, queue `q` holds the passages of category `q` that rounds `d`, `d + 1` and so on take. */
  ghost predicate Queues(cats: seq<nat>, d: nat, queues: seq<seq<nat>>) {
    forall q :: 0 <= q < |queues| ==> QueueOk(cats, d, q, queues[q])
  }

  ghost predicate QueueOk(cats: seq<nat>, d: nat, q: nat, queue: seq<nat>) {
    forall i :: 0 <= i < |queue| ==> CatAt(cats, queue[i]) == q && Round(cats, queue[i]) == d + i
  }

  lemma TailsOk(cats: seq<nat>, d: nat, queues: seq<seq<nat>>)
    requires Queues(cats, d, queues)
    ensures Queues(cats, d + 1, Tails(queues))
  {
    forall q | 0 <= q < |queues| ensures QueueOk(cats, d + 1, q, Tails(queues)[q]) {
      assert QueueOk(cats, d, q, queues[q]);
    }
  }

  /** A round takes passages of that round, in the order of the queues. */
  lemma {:induction false} HeadsInOrder(cats: seq<nat>, d: nat, queues: seq<seq<nat>>)
    requires Queues(cats, d, queues)
    ensures forall x :: x in Heads(queues) ==> Round(cats, x) == d && CatAt(cats, x) < |queues|
    ensures SortedBy(Heads(queues), ByRound(cats))
  {
    if queues != [] {
      var n := |queues| - 1;
      var front := queues[..n];
      assert Queues(cats, d, front) by {
        forall q | 0 <= q < n ensures QueueOk(cats, d, q, front[q]) {
          assert QueueOk(cats, d, q, queues[q]);
        }
      }
      HeadsInOrder(cats, d, front);
      assert QueueOk(cats, d, n, queues[n]);
      if queues[n] != [] {
        AppendChain(Heads(front), [queues[n][0]], ByRound(cats));
      }
    }
  }

  /** The round-robin order is by round, and in a round by category. */
  lemma {:induction false} RoundsInOrder(cats: seq<nat>, d: nat, queues: seq<seq<nat>>)
    requires Queues(cats, d, queues)
    ensures SortedBy(Balanced(queues), ByRound(cats))
    ensures forall x :: x in Balanced(queues) ==> Round(cats, x) >= d
    decreases QueueCount(queues)
  {
    if !AllEmpty(queues) {
      TailsCount(queues);
      TailsOk(cats, d, queues);
      RoundsInOrder(cats, d + 1, Tails(queues));
      HeadsInOrder(cats, d, queues);
      AppendChain(Heads(queues), Balanced(Tails(queues)), ByRound(cats));
    }
  }

  function Ascends(): (nat, nat) -> bool {
    (x: nat, y: nat) => x < y
  }

  /** The i-th passage of a category is taken in round `i`. */
  lemma {:induction false} QueueRounds(cats: seq<nat>, q: nat, n: nat)
    requires n <= |cats|
    ensures QueueOk(cats, 0, q, Filter(Positions(n), InQueue(cats, q)))
    ensures |Filter(Positions(n), InQueue(cats, q))| == Count(cats[..n], IsCat(q))
  {
    if n > 0 {
      QueueRounds(cats, q, n - 1);
      assert Positions(n)[..n - 1] == Positions(n - 1);
      assert cats[..n][..n - 1] == cats[..n - 1];
    }
  }

  lemma QueuesAreOk(cats: seq<nat>)
    ensures Queues(cats, 0, QueuesOf(cats, |cats|))
  {
    forall q | 0 <= q < 5 ensures QueueOk(cats, 0, q, QueuesOf(cats, |cats|)[q]) {
      QueueRounds(cats, q, |cats|);
    }
  }

  // ----- the arrangement

  /** Passages near retrieval hits first, in source order, then the others round by round. */
  function NearFirst(cats: seq<nat>, nearby: set<nat>): (nat, nat) -> bool {
    (x: nat, y: nat) =>
      if x in nearby || y in nearby then x in nearby && (y in nearby ==> x < y) else ByRound(cats)(x, y)
  }

  lemma NearbyComeFirst(cats: seq<nat>, nearby: set<nat>, balanced: seq<nat>)
    requires SortedBy(balanced, ByRound(cats))
    ensures SortedBy(Filter(Positions(|cats|), In(nearby)) + Filter(balanced, NotIn(nearby)), NearFirst(cats, nearby))
  {
    var all := Positions(|cats|);
    var near, far := Filter(all, In(nearby)), Filter(balanced, NotIn(nearby));
    var r := NearFirst(cats, nearby);
    FilterMembers(all, In(nearby));
    FilterMembers(balanced, NotIn(nearby));
    FilterSorted(all, In(nearby), Ascends());
    FilterSorted(balanced, NotIn(nearby), ByRound(cats));
    forall i, j | 0 <= i < j < |near| ensures r(near[i], near[j]) {
      assert near[i] in near && near[j] in near && Ascends()(near[i], near[j]);
    }
    forall i, j | 0 <= i < j < |far| ensures r(far[i], far[j]) {
      assert far[i] in far && far[j] in far && ByRound(cats)(far[i], far[j]);
    }
    AppendChain(near, far, r);
  }

  lemma ArrangedOrder(cats: seq<nat>, nearby: set<nat>, mandatory: Option<nat -> bool>, i: nat, j: nat)
    requires i < j < |Arranged(cats, nearby, mandatory)|
    ensures var x, y := Arranged(cats, nearby, mandatory)[i], Arranged(cats, nearby, mandatory)[j];
      if mandatory.Some? && mandatory.value(x) != mandatory.value(y) then mandatory.value(x)
      else NearFirst(cats, nearby)(x, y)
  {
    var balanced := Balanced(QueuesOf(cats, |cats|));
    QueuesAreOk(cats);
    RoundsInOrder(cats, 0, QueuesOf(cats, |cats|));
    NearbyComeFirst(cats, nearby, balanced);
    if mandatory.Some? {
      var base, p := Filter(Positions(|cats|), In(nearby)) + Filter(balanced, NotIn(nearby)), mandatory.value;
      var first, second := Filter(base, p), Filter(base, Not(p));
      FilterSorted(base, p, NearFirst(cats, nearby));
      FilterSorted(base, Not(p), NearFirst(cats, nearby));
      FilterMembers(base, p);
      FilterMembers(base, Not(p));
      if i < |first| {
        assert first[i] in first;
      } else {
        assert second[i - |first|] in second;
      }
      if j < |first| {
        assert first[j] in first;
      } else {
        assert second[j - |first|] in second;
      }
    }
  }

  predicate HasMandatory(req: Request, text: string, ps: seq<Passage>, k: nat)
    requires k < |ps|
  {
    req.mandatory.Some? && req.mandatory.value(Body(text, ps[k].piece))
  }

  /** Whether passage `x` may stand before passage `y`. */
  ghost predicate Before(req: Request, text: string, ps: seq<Passage>, evidence: Evidence, x: nat, y: nat)
    requires x < |ps| && y < |ps|
  {
    if HasMandatory(req, text, ps, x) != HasMandatory(req, text, ps, y) then HasMandatory(req, text, ps, x)
    else if Near(req, text, ps, evidence, x) != Near(req, text, ps, evidence, y) then Near(req, text, ps, evidence, x)
    else if Near(req, text, ps, evidence, x) then x < y
    else
      var cats := CatsOf(ps);
      Round(cats, x) < Round(cats, y) || (Round(cats, x) == Round(cats, y) && ps[x].cat < ps[y].cat)
  }

  /**
   * Passages with a mandatory term come before those without. Within both kinds, those that hold a
   * retrieval hit or adjoin one in their section come first, in source order, and the others follow round by
   * round: first by how many passages of their category precede them, then by category.
   */
  lemma ArrangementOrder(req: Request, text: string, ps: seq<Passage>, evidence: Evidence, i: nat, j: nat)
    requires i < j < |ArrangedFor(req, text, ps, evidence)|
    requires forall k: nat :: k in ArrangedFor(req, text, ps, evidence) ==> k < |ps|
    ensures var ordered := ArrangedFor(req, text, ps, evidence);
      ordered[i] in ordered && ordered[j] in ordered && Before(req, text, ps, evidence, ordered[i], ordered[j])
  {
    var cats, nearby, mandatory := CatsOf(ps), NearbyOf(req, text, ps, evidence), MandatoryAt(req, text, ps);
    ArrangedOrder(cats, nearby, mandatory, i, j);
    var ordered := ArrangedFor(req, text, ps, evidence);
    var x, y := ordered[i], ordered[j];
    assert x in ordered && y in ordered;
    assert CatAt(cats, x) == ps[x].cat && CatAt(cats, y) == ps[y].cat;
    assert mandatory.Some? ==> mandatory.value(x) == HasMandatory(req, text, ps, x);
    assert mandatory.Some? ==> mandatory.value(y) == HasMandatory(req, text, ps, y);
    if HasMandatory(req, text, ps, x) == HasMandatory(req, text, ps, y) {
      assert NearFirst(cats, nearby)(x, y);
      NearFirstMeans(cats, nearby, x, y);
    }
  }

  lemma NearFirstMeans(cats: seq<nat>, nearby: set<nat>, x: nat, y: nat)
    requires NearFirst(cats, nearby)(x, y)
    ensures (x in nearby) != (y in nearby) ==> x in nearby
    ensures x in nearby && y in nearby ==> x < y
    ensures x !in nearby && y !in nearby ==> ByRound(cats)(x, y)
  {
  }

  // ----- where passages are listed

  function Under(evidence: Evidence, cat: string): seq<Chunk> {
    if cat in evidence then evidence[cat] else []
  }

  lemma {:induction false} ListingUnder(evidence: Evidence, homes: seq<string>, c: Chunk, cat: string)
    requires Distinct(homes)
    ensures Under(Listing(evidence, homes, c), cat) == Under(evidence, cat) + if cat in homes then [c] else []
  {
    if homes != [] {
      var n := |homes| - 1;
      assert homes == homes[..n] + [homes[n]];
      ListingUnder(evidence, homes[..n], c, cat);
    }
  }

  lemma HomesDistinct(cat: nat)
    requires cat < 5
    ensures Distinct(Homes(cat))
  {
    assert |"EXPERIENCE"| == 10 && |"PROJECTS"| == 8 && |"SKILLS"| == 6 && |"EDUCATION"| == 9;
  }

  function HasHome(ps: seq<Passage>, cat: string): nat -> bool {
    (k: nat) => k < |ps| && ps[k].cat < 5 && cat in Homes(ps[k].cat)
  }

  function ChunkAt(text: string, ps: seq<Passage>): nat -> Chunk {
    (k: nat) => if k < |ps| then PassageChunk(text, ps[k].piece) else PassageChunk(text, Piece(0, 0, 0))
  }

  lemma MapNext(xs: seq<nat>, f: nat -> Chunk, k: nat)
    ensures Map(xs + [k], f) == Map(xs, f) + [f(k)]
  {
  }

  /** Applied passages are cited for skills too, and the opening of the CV for everything. */
  ghost predicate CitedFor(cat: string, passage: nat) {
    || (cat == "EXPERIENCE" && passage <= 2)
    || (cat == "PROJECTS" && passage <= 2)
    || (cat == "SKILLS" && passage <= 3)
    || (cat == "EDUCATION" && (passage == 0 || passage == 4))
  }

  lemma HomesAre(passage: nat, cat: string)
    requires passage < 5
    ensures cat in Homes(passage) <==> CitedFor(cat, passage)
  {
    assert |"EXPERIENCE"| == 10 && |"PROJECTS"| == 8 && |"SKILLS"| == 6 && |"EDUCATION"| == 9;
  }

  /**
   * A category lists what was retained for it, then the added passages at home in it, in the order added. The
   * passages before any header are at home everywhere, experience and projects under both and under skills,
   * skills and education only under themselves.
   */
  lemma {:induction false} AddedAreListed(text: string, ps: seq<Passage>, retained: Evidence, chosen: seq<nat>, cat: string)
    requires forall k :: k in chosen ==> k < |ps| && ps[k].cat < 5
    ensures Under(Assembled(text, ps, retained, chosen), cat)
         == Under(retained, cat) + Map(Filter(chosen, HasHome(ps, cat)), ChunkAt(text, ps))
    ensures forall k :: k in chosen ==> (HasHome(ps, cat)(k) <==> CitedFor(cat, ps[k].cat))
  {
    forall k | k in chosen ensures HasHome(ps, cat)(k) <==> CitedFor(cat, ps[k].cat) {
      HomesAre(ps[k].cat, cat);
    }
    if chosen == [] {
      assert Map(Filter(chosen, HasHome(ps, cat)), ChunkAt(text, ps)) == [];
    } else {
      var n := |chosen| - 1;
      var k := chosen[n];
      assert k in chosen && forall j :: j in chosen[..n] ==> j in chosen;
      AddedAreListed(text, ps, retained, chosen[..n], cat);
      HomesDistinct(ps[k].cat);
      ListingUnder(Assembled(text, ps, retained, chosen[..n]), Homes(ps[k].cat), PassageChunk(text, ps[k].piece), cat);
      MapNext(Filter(chosen[..n], HasHome(ps, cat)), ChunkAt(text, ps), k);
    }
  }
}
