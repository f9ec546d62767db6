/** Ordering the passages of a CV and adding those that fit to the retained evidence. */
module ContextAssembly {
  import opened Prelude
  import opened Context

  // ----- rearranging positions

  function Positions(n: nat): (ps: seq<nat>)
    ensures |ps| == n && forall i :: 0 <= i < n ==> ps[i] == i
  {
    seq(n, i requires 0 <= i < n => i)
  }

  /** Everything in the queues. */
  function Flat(queues: seq<seq<nat>>): multiset<nat> {
    if queues == [] then multiset{} else Flat(queues[..|queues| - 1]) + multiset(queues[|queues| - 1])
  }

  lemma {:induction false} FlatUpdate(queues: seq<seq<nat>>, q: nat, xs: seq<nat>)
    requires q < |queues|
    ensures Flat(queues[q := xs]) + multiset(queues[q]) == Flat(queues) + multiset(xs)
  {
    var n := |queues| - 1;
    if q == n {
      assert queues[q := xs][..n] == queues[..n];
    } else {
      assert queues[q := xs][..n] == queues[..n][q := xs];
      FlatUpdate(queues[..n], q, xs);
      var front := queues[..n];
      Swapped(Flat(front[q := xs]), multiset(queues[q]), Flat(front), multiset(xs), multiset(queues[n]));
    }
  }

  lemma Swapped(a: multiset<nat>, b: multiset<nat>, c: multiset<nat>, d: multiset<nat>, e: multiset<nat>)
    requires a + b == c + d
    ensures (a + e) + b == (c + e) + d
  {
    forall x ensures ((a + e) + b)[x] == ((c + e) + d)[x] {
      assert (a + b)[x] == (c + d)[x];
    }
  }

  lemma Cancel(a: multiset<nat>, b: multiset<nat>, c: multiset<nat>, d: multiset<nat>)
    requires a + b == c + (b + d)
    ensures a == c + d
  {
    forall x ensures a[x] == (c + d)[x] {
      assert (a + b)[x] == (c + (b + d))[x];
    }
  }

  lemma {:induction false} FlatOfEmpty(queues: seq<seq<nat>>)
    requires forall q :: 0 <= q < |queues| ==> queues[q] == []
    ensures Flat(queues) == multiset{}
  {
    if queues != [] {
      FlatOfEmpty(queues[..|queues| - 1]);
    }
  }

  lemma Enqueue(queues: seq<seq<nat>>, q: nat, k: nat)
    requires q < |queues|
    ensures Flat(queues[q := queues[q] + [k]]) == Flat(queues) + multiset{k}
  {
    FlatUpdate(queues, q, queues[q] + [k]);
    assert multiset(queues[q] + [k]) == multiset(queues[q]) + multiset{k};
    Cancel(Flat(queues[q := queues[q] + [k]]), multiset(queues[q]), Flat(queues), multiset{k});
  }

  function InQueue(cats: seq<nat>, q: nat): nat -> bool {
    (k: nat) => k < |cats| && cats[k] == q
  }

  /** The passages of each category, in source order. */
  function QueuesOf(cats: seq<nat>, n: nat): (queues: seq<seq<nat>>)
    ensures |queues| == 5 && forall q :: 0 <= q < 5 ==> queues[q] == Filter(Positions(n), InQueue(cats, q))
  {
    seq(5, q requires 0 <= q < 5 => Filter(Positions(n), InQueue(cats, q)))
  }

  lemma NextQueues(cats: seq<nat>, k: nat)
    requires k < |cats| && cats[k] < 5
    ensures var queues := QueuesOf(cats, k);
      QueuesOf(cats, k + 1) == queues[cats[k] := queues[cats[k]] + [k]]
  {
    assert Positions(k + 1)[..k] == Positions(k);
  }

  /** A passage joins the queue of its category. */
  method Distribute(cats: seq<nat>) returns (queues: seq<seq<nat>>)
    requires forall k :: 0 <= k < |cats| ==> cats[k] < 5
    ensures queues == QueuesOf(cats, |cats|) && Flat(queues) == multiset(Positions(|cats|))
  {
    queues := [[], [], [], [], []];
    FlatOfEmpty(queues);
    assert queues == QueuesOf(cats, 0);
    var k := 0;
    while k < |cats|
      invariant 0 <= k <= |cats| && queues == QueuesOf(cats, k) && Flat(queues) == multiset(Positions(k))
    {
      var q := cats[k];
      Enqueue(queues, q, k);
      NextQueues(cats, k);
      assert Positions(k + 1) == Positions(k) + [k];
      queues := queues[q := queues[q] + [k]];
      k := k + 1;
    }
  }

  function QueueCount(queues: seq<seq<nat>>): nat {
    if queues == [] then 0 else QueueCount(queues[..|queues| - 1]) + |queues[|queues| - 1]|
  }

  /** Taking the head of a queue moves it from the queues to the list. */
  lemma TakeHead(queues: seq<seq<nat>>, q: nat, taken: seq<nat>)
    requires q < |queues| && queues[q] != []
    ensures multiset(taken + [queues[q][0]]) + Flat(queues[q := queues[q][1..]]) == multiset(taken) + Flat(queues)
  {
    var head, tail := queues[q][0], queues[q][1..];
    assert queues[q] == [head] + tail;
    FlatUpdate(queues, q, tail);
    forall x ensures (multiset(taken + [head]) + Flat(queues[q := tail]))[x] == (multiset(taken) + Flat(queues))[x] {
      assert (Flat(queues[q := tail]) + multiset(queues[q]))[x] == (Flat(queues) + multiset(tail))[x];
      assert multiset(queues[q])[x] == multiset([head])[x] + multiset(tail)[x];
    }
  }

  // ----- rounds

  /** The first of every queue that is not empty. */
  function Heads(queues: seq<seq<nat>>): seq<nat> {
    if queues == [] then []
    else
      var before, last := Heads(queues[..|queues| - 1]), queues[|queues| - 1];
      if last == [] then before else before + [last[0]]
  }

  /** What the queues hold after a round. */
  function Tails(queues: seq<seq<nat>>): (tails: seq<seq<nat>>)
    ensures |tails| == |queues|
    ensures forall q :: 0 <= q < |queues| ==> tails[q] == if queues[q] == [] then [] else queues[q][1..]
  {
    seq(|queues|, q requires 0 <= q < |queues| => if queues[q] == [] then [] else queues[q][1..])
  }

  predicate AllEmpty(queues: seq<seq<nat>>) {
    forall q :: 0 <= q < |queues| ==> queues[q] == []
  }

  lemma {:induction false} TailsCount(queues: seq<seq<nat>>)
    ensures QueueCount(Tails(queues)) <= QueueCount(queues)
    ensures !AllEmpty(queues) ==> QueueCount(Tails(queues)) < QueueCount(queues)
  {
    if queues != [] {
      var n := |queues| - 1;
      assert Tails(queues)[..n] == Tails(queues[..n]);
      TailsCount(queues[..n]);
      if !AllEmpty(queues) && queues[n] == [] {
        var q :| 0 <= q < |queues| && queues[q] != [];
        assert queues[..n][q] != [];
      }
    }
  }

  /** Round after round, one passage from every queue that still has some. */
  function Balanced(queues: seq<seq<nat>>): seq<nat>
    decreases QueueCount(queues)
  {
    if AllEmpty(queues) then []
    else
      TailsCount(queues);
      Heads(queues) + Balanced(Tails(queues))
  }

  /** The first `q` queues have given their heads. */
  ghost predicate Taken(start: seq<seq<nat>>, q: nat, taken: seq<nat>, queues: seq<seq<nat>>) {
    && q <= |start| && queues == Tails(start[..q]) + start[q..] && taken == Heads(start[..q])
    && multiset(taken) + Flat(queues) == Flat(start)
  }

  lemma TakenNext(start: seq<seq<nat>>, q: nat, taken: seq<nat>, queues: seq<seq<nat>>)
    requires Taken(start, q, taken, queues) && q < |start|
    ensures |queues| == |start| && queues[q] == start[q]
    ensures queues[q] == [] ==> Taken(start, q + 1, taken, queues)
    ensures queues[q] != [] ==> Taken(start, q + 1, taken + [queues[q][0]], queues[q := queues[q][1..]])
  {
    assert start[..q + 1][..q] == start[..q];
    assert Tails(start[..q + 1]) == Tails(start[..q]) + [if start[q] == [] then [] else start[q][1..]];
    if queues[q] != [] {
      TakeHead(queues, q, taken);
      assert queues[q := queues[q][1..]] == Tails(start[..q + 1]) + start[q + 1..];
    } else {
      assert queues == Tails(start[..q + 1]) + start[q + 1..];
    }
  }

  method TakeRound(start: seq<seq<nat>>) returns (taken: seq<nat>, queues: seq<seq<nat>>)
    ensures taken == Heads(start) && queues == Tails(start)
    ensures multiset(taken) + Flat(queues) == Flat(start)
  {
    queues, taken := start, [];
    var q := 0;
    assert start[..0] == [] && Tails([]) + start == start;
    while q < |queues|
      invariant 0 <= q <= |queues| == |start| && Taken(start, q, taken, queues)
    {
      TakenNext(start, q, taken, queues);
      if queues[q] != [] {
        taken, queues := taken + [queues[q][0]], queues[q := queues[q][1..]];
      }
      q := q + 1;
    }
    assert start[..q] == start && start[q..] == [];
  }

  /** What has been ordered, and what the queues will still give. */
  ghost predicate Rounds(start: seq<seq<nat>>, ordered: seq<nat>, queues: seq<seq<nat>>) {
    multiset(ordered) + Flat(queues) == Flat(start) && ordered + Balanced(queues) == Balanced(start)
  }

  lemma NextRound(start: seq<seq<nat>>, ordered: seq<nat>, queues: seq<seq<nat>>, taken: seq<nat>, rest: seq<seq<nat>>)
    requires Rounds(start, ordered, queues) && !AllEmpty(queues)
    requires taken == Heads(queues) && rest == Tails(queues) && multiset(taken) + Flat(rest) == Flat(queues)
    ensures Rounds(start, ordered + taken, rest)
  {
    JoinRound(ordered, taken, rest, queues);
    assert Balanced(queues) == taken + Balanced(rest);
    assert ordered + (taken + Balanced(rest)) == (ordered + taken) + Balanced(rest);
  }

  lemma LastRound(start: seq<seq<nat>>, ordered: seq<nat>, queues: seq<seq<nat>>)
    requires Rounds(start, ordered, queues) && AllEmpty(queues)
    ensures ordered == Balanced(start) && multiset(ordered) == Flat(start)
  {
    FlatOfEmpty(queues);
    assert ordered + [] == ordered;
  }

  /** Round after round, until every queue is empty. */
  method RoundRobin(start: seq<seq<nat>>) returns (ordered: seq<nat>)
    ensures ordered == Balanced(start) && multiset(ordered) == Flat(start)
  {
    var queues := start;
    ordered := [];
    assert [] + Balanced(start) == Balanced(start);
    while !AllEmpty(queues)
      invariant Rounds(start, ordered, queues)
      decreases QueueCount(queues)
    {
      TailsCount(queues);
      var taken, rest := TakeRound(queues);
      NextRound(start, ordered, queues, taken, rest);
      ordered, queues := ordered + taken, rest;
    }
    LastRound(start, ordered, queues);
  }

  lemma JoinRound(ordered: seq<nat>, taken: seq<nat>, rest: seq<seq<nat>>, queues: seq<seq<nat>>)
    requires multiset(taken) + Flat(rest) == Flat(queues)
    ensures multiset(ordered + taken) + Flat(rest) == multiset(ordered) + Flat(queues)
  {
    assert multiset(ordered + taken) == multiset(ordered) + multiset(taken);
  }

  lemma {:induction false} FilterMultiset<T>(xs: seq<T>, p: T -> bool, x: T)
    ensures multiset(Filter(xs, p))[x] == if p(x) then multiset(xs)[x] else 0
  {
    if xs != [] {
      var n := |xs| - 1;
      assert xs == xs[..n] + [xs[n]];
      FilterMultiset(xs[..n], p, x);
    }
  }

  function In(s: set<nat>): nat -> bool {
    (k: nat) => k in s
  }

  function NotIn(s: set<nat>): nat -> bool {
    (k: nat) => k !in s
  }

  function Not(p: nat -> bool): nat -> bool {
    (k: nat) => !p(k)
  }

  /** Those with a property first, the others after, each in their order. */
  function FirstWith(xs: seq<nat>, p: nat -> bool): (ys: seq<nat>)
  {
    Filter(xs, p) + Filter(xs, Not(p))
  }

  lemma FirstWithPermutes(xs: seq<nat>, p: nat -> bool)
    ensures multiset(FirstWith(xs, p)) == multiset(xs)
  {
    forall x ensures multiset(FirstWith(xs, p))[x] == multiset(xs)[x] {
      FilterMultiset(xs, p, x);
      FilterMultiset(xs, Not(p), x);
    }
  }

  /** Passages near retrieval hits in source order, then the rest, section-balanced; mandatory terms first. */
  function Arranged(cats: seq<nat>, nearby: set<nat>, mandatory: Option<nat -> bool>): seq<nat> {
    var balanced := Balanced(QueuesOf(cats, |cats|));
    var ordered := Filter(Positions(|cats|), In(nearby)) + Filter(balanced, NotIn(nearby));
    if mandatory.Some? then FirstWith(ordered, mandatory.value) else ordered
  }

  method OrderPassages(cats: seq<nat>, nearby: set<nat>, mandatory: Option<nat -> bool>) returns (ordered: seq<nat>)
    requires forall k :: 0 <= k < |cats| ==> cats[k] < 5
    ensures ordered == Arranged(cats, nearby, mandatory)
    ensures Distinct(ordered) && forall k: nat :: k in ordered <==> k < |cats|
  {
    var queues := Distribute(cats);
    var balanced := RoundRobin(queues);
    ordered := Filter(Positions(|cats|), In(nearby)) + Filter(balanced, NotIn(nearby));
    forall x ensures multiset(ordered)[x] == multiset(Positions(|cats|))[x] {
      FilterMultiset(Positions(|cats|), In(nearby), x);
      FilterMultiset(balanced, NotIn(nearby), x);
    }
    if mandatory.Some? {
      FirstWithPermutes(ordered, mandatory.value);
      ordered := FirstWith(ordered, mandatory.value);
    }
    AllPositions(ordered, |cats|);
  }

  lemma AllPositions(ordered: seq<nat>, n: nat)
    requires multiset(ordered) == multiset(Positions(n))
    ensures Distinct(ordered) && forall k: nat :: k in ordered <==> k < n
  {
    forall k: nat ensures k in ordered <==> k < n
      ensures k in Positions(n) <==> k < n
    {
      assert k in ordered <==> k in multiset(ordered);
      assert k in Positions(n) <==> k in multiset(Positions(n));
      if k < n {
        assert Positions(n)[k] == k;
      }
    }
    assert |ordered| == |multiset(ordered)| == |multiset(Positions(n))| == n;
    ElementsCount(ordered);
    ElementsCount(Positions(n));
    forall k: nat ensures k in Elements(ordered) <==> k in Elements(Positions(n)) {
      assert k in ordered <==> k in Positions(n);
    }
    assert Elements(ordered) == Elements(Positions(n));
  }

  // ----- adding the passages that fit

  /**
   * The citation categories a passage is listed under; the queues are, in order, CONTEXT, EXPERIENCE,
   * PROJECTS, SKILLS and EDUCATION.
   */
  function Homes(cat: nat): (homes: seq<string>)
    requires cat < 5
    ensures homes != []
  {
    match cat
    case 0 => ["EXPERIENCE", "PROJECTS", "SKILLS", "EDUCATION"]
    case 1 => ["EXPERIENCE", "PROJECTS", "SKILLS"]
    case 2 => ["PROJECTS", "EXPERIENCE", "SKILLS"]
    case 3 => ["SKILLS"]
    case _ => ["EDUCATION"]
  }

  function PassageChunk(text: string, p: Piece): Chunk {
    Chunk(WholeCv, Some(OfSpan(p.start, p.stop)), Body(text, p))
  }

  function PassageKey(text: string, p: Piece): Key {
    KeyOf(PassageChunk(text, p))
  }

  function Append(evidence: Evidence, cat: string, c: Chunk): Evidence {
    evidence[cat := (if cat in evidence then evidence[cat] else []) + [c]]
  }

  lemma AppendKeys(evidence: Evidence, cat: string, c: Chunk)
    ensures Keys(Append(evidence, cat, c)) == Keys(evidence) + {KeyOf(c)}
  {
    var after := Append(evidence, cat, c);
    forall k ensures k in Keys(after) <==> k in Keys(evidence) + {KeyOf(c)} {
      if k in Keys(after) {
        var d, x :| d in after && x in after[d] && KeyOf(x) == k;
        if d != cat || (cat in evidence && x in evidence[cat]) {
          assert d in evidence && x in evidence[d];
        }
      }
      if k in Keys(evidence) {
        var d, x :| d in evidence && x in evidence[d] && KeyOf(x) == k;
        assert d in after && x in after[d];
      }
      if k == KeyOf(c) {
        assert c in after[cat];
      }
    }
  }

  /** The passage listed under each of these categories, after what they list already. */
  function Listing(evidence: Evidence, homes: seq<string>, c: Chunk): Evidence {
    if homes == [] then evidence
    else Append(Listing(evidence, homes[..|homes| - 1], c), homes[|homes| - 1], c)
  }

  lemma {:induction false} ListingKeys(evidence: Evidence, homes: seq<string>, c: Chunk)
    ensures Keys(Listing(evidence, homes, c)) == if homes == [] then Keys(evidence) else Keys(evidence) + {KeyOf(c)}
    ensures Extends(evidence, Listing(evidence, homes, c))
  {
    if homes != [] {
      var n := |homes| - 1;
      ListingKeys(evidence, homes[..n], c);
      AppendKeys(Listing(evidence, homes[..n], c), homes[n], c);
    }
  }

  /** Each category keeps what it listed. */
  ghost predicate Extends(evidence: Evidence, after: Evidence) {
    forall cat :: cat in evidence ==> cat in after && evidence[cat] <= after[cat]
  }

  /** List the passage under each of its categories. */
  method AddPassage(evidence: Evidence, homes: seq<string>, c: Chunk) returns (after: Evidence)
    ensures after == Listing(evidence, homes, c)
  {
    after := evidence;
    var h := 0;
    while h < |homes|
      invariant 0 <= h <= |homes| && after == Listing(evidence, homes[..h], c)
    {
      assert homes[..h + 1][..h] == homes[..h];
      after := Append(after, homes[h], c);
      h := h + 1;
    }
    assert homes[..h] == homes;
  }

  // ----- the running total

  function Length(passages: seq<string>, k: nat): nat {
    if k < |passages| then |passages[k]| else 0
  }

  /** Characters of the passages at these positions. */
  function Included(passages: seq<string>, at: seq<nat>): nat {
    if at == [] then 0 else Included(passages, at[..|at| - 1]) + Length(passages, at[|at| - 1])
  }

  ghost function PassageKeys(keys: seq<Key>, at: seq<nat>): set<Key>
    requires forall k :: k in at ==> k < |keys|
  {
    set k | k in at :: keys[k]
  }

  /** Distinct positions, distinct sources, none of them empty. */
  ghost predicate Passages(keys: seq<Key>, texts: seq<string>) {
    && Distinct(keys) && |keys| == |texts|
    && (forall k :: 0 <= k < |keys| ==> keys[k].text == texts[k] && texts[k] != "")
  }

  lemma NextPassageKey(keys: seq<Key>, front: seq<nat>, k: nat)
    requires Distinct(keys) && k < |keys| && k !in front && forall j :: j in front ==> j < |keys|
    ensures forall j :: j in front + [k] ==> j < |keys|
    ensures PassageKeys(keys, front + [k]) == PassageKeys(keys, front) + {keys[k]}
    ensures keys[k] !in PassageKeys(keys, front)
  {
    forall j | j in front ensures keys[j] != keys[k] {
      assert j != k;
    }
  }

  lemma AddedKey(before: set<Key>, total: nat, retained: set<Key>, added: set<Key>, k: Key)
    requires before == retained + added && k !in added && k.text != ""
    requires Chars(before) <= total && (Chars(before) == total <==> retained !! added)
    ensures Chars(before + {k}) <= total + |k.text|
    ensures Chars(before + {k}) == total + |k.text| <==> retained !! added + {k}
  {
    if k in retained {
      assert before + {k} == before;
    } else {
      CharsAdd(before, k);
    }
  }

  /**
   * After adding passages on top of retained keys, the running total is at least the true count, and
   * equal to it exactly when no passage was retained already.
   */
  lemma {:induction false} TotalOfAdded(retained: set<Key>, keys: seq<Key>, texts: seq<string>, at: seq<nat>)
    requires Passages(keys, texts) && Distinct(at) && forall k :: k in at ==> k < |keys|
    ensures Chars(retained + PassageKeys(keys, at)) <= Chars(retained) + Included(texts, at)
    ensures Chars(retained + PassageKeys(keys, at)) == Chars(retained) + Included(texts, at)
            <==> retained !! PassageKeys(keys, at)
  {
    if at == [] {
      assert PassageKeys(keys, at) == {} && retained + {} == retained;
    } else {
      var n := |at| - 1;
      var front, k := at[..n], at[n];
      assert at == front + [k] && k in at;
      assert forall j :: j in front ==> j in at;
      TotalOfAdded(retained, keys, texts, front);
      NextPassageKey(keys, front, k);
      TotalStep(retained, PassageKeys(keys, front), PassageKeys(keys, front + [k]), keys[k],
                Chars(retained) + Included(texts, front), Chars(retained) + Included(texts, at));
    }
  }

  lemma TotalStep(retained: set<Key>, added: set<Key>, all: set<Key>, k: Key, total: nat, sum: nat)
    requires all == added + {k} && k !in added && k.text != "" && sum == total + |k.text|
    requires Chars(retained + added) <= total && (Chars(retained + added) == total <==> retained !! added)
    ensures Chars(retained + all) <= sum && (Chars(retained + all) == sum <==> retained !! all)
  {
    AddedKey(retained + added, total, retained, added, k);
    assert retained + all == (retained + added) + {k};
  }

  /** Passages of nonblank pieces, with their queue. */
  datatype Passage = Passage(piece: Piece, cat: nat)

  ghost predicate Kept(ps: seq<Passage>, p: Piece) {
    exists k :: 0 <= k < |ps| && ps[k].piece == p
  }

  /** The passages are the nonblank pieces, each once, in source order. */
  ghost predicate PassagesOf(text: string, blank: string -> bool, pieces: seq<Piece>, ps: seq<Passage>) {
    && (forall i :: 0 <= i < |ps| ==>
          ps[i].piece in pieces && !blank(Body(text, ps[i].piece)) && ps[i].cat < 5
          && ps[i].piece.start < ps[i].piece.stop <= |text|)
    && (forall p :: p in pieces && !blank(Body(text, p)) ==> Kept(ps, p))
    && (forall i, j :: 0 <= i < j < |ps| ==> ps[i].piece.stop <= ps[j].piece.start)
  }

  lemma KeptMore(ps: seq<Passage>, more: Passage, p: Piece)
    ensures Kept(ps + [more], p) <==> Kept(ps, p) || p == more.piece
  {
    if Kept(ps, p) {
      var k :| 0 <= k < |ps| && ps[k].piece == p;
      assert (ps + [more])[k].piece == p;
    }
    assert (ps + [more])[|ps|] == more;
  }

  lemma KeepPiece(text: string, blank: string -> bool, pieces: seq<Piece>, ps: seq<Passage>, more: Passage)
    requires PassagesOf(text, blank, pieces, ps) && more.cat < 5 && !blank(Body(text, more.piece))
    requires more.piece.start < more.piece.stop <= |text|
    requires forall k :: 0 <= k < |ps| ==> ps[k].piece.stop <= more.piece.start
    ensures PassagesOf(text, blank, pieces + [more.piece], ps + [more])
  {
    forall p | p in pieces + [more.piece] && !blank(Body(text, p)) ensures Kept(ps + [more], p) {
      KeptMore(ps, more, p);
    }
  }

  /** Every passage is in the queue of its section. */
  ghost predicate CatsRight(category: int -> nat, ps: seq<Passage>) {
    forall k :: 0 <= k < |ps| ==> ps[k].cat == category(ps[k].piece.section)
  }

  lemma CatsRightNext(category: int -> nat, ps: seq<Passage>, piece: Piece)
    requires CatsRight(category, ps)
    ensures CatsRight(category, ps + [Passage(piece, category(piece.section))])
  {
  }

  /** The nonblank ones of the first `i` pieces have been kept, and the next piece starts after them. */
  ghost predicate KeptUpTo(text: string, blank: string -> bool, category: int -> nat, pieces: seq<Piece>, i: nat,
                           ps: seq<Passage>)
    requires i <= |pieces|
  {
    && PassagesOf(text, blank, pieces[..i], ps) && CatsRight(category, ps)
    && (i < |pieces| ==> forall k :: 0 <= k < |ps| ==> ps[k].piece.stop <= pieces[i].start)
  }

  lemma KeepNext(text: string, blank: string -> bool, category: int -> nat, pieces: seq<Piece>, i: nat, ps: seq<Passage>)
    requires i < |pieces| && Tiles(pieces, 0, |text|) && forall s :: category(s) < 5
    requires KeptUpTo(text, blank, category, pieces, i, ps)
    ensures pieces[i].start < pieces[i].stop <= |text|
    ensures blank(Body(text, pieces[i])) ==> KeptUpTo(text, blank, category, pieces, i + 1, ps)
    ensures !blank(Body(text, pieces[i])) ==>
              KeptUpTo(text, blank, category, pieces, i + 1, ps + [Passage(pieces[i], category(pieces[i].section))])
  {
    var piece := pieces[i];
    assert pieces[..i + 1] == pieces[..i] + [piece];
    OrderedTiles(pieces, i);
    if !blank(Body(text, piece)) {
      CatsRightNext(category, ps, piece);
      KeepPiece(text, blank, pieces[..i], ps, Passage(piece, category(piece.section)));
    }
  }

  /** Keep the pieces that are not blank; `category` is the queue of a section. */
  method NonBlank(text: string, blank: string -> bool, category: int -> nat, pieces: seq<Piece>) returns (ps: seq<Passage>)
    requires Tiles(pieces, 0, |text|) && forall s :: category(s) < 5
    ensures PassagesOf(text, blank, pieces, ps)
    ensures CatsRight(category, ps)
  {
    ps := [];
    var i := 0;
    while i < |pieces|
      invariant 0 <= i <= |pieces| && KeptUpTo(text, blank, category, pieces, i, ps)
    {
      var piece := pieces[i];
      KeepNext(text, blank, category, pieces, i, ps);
      if !blank(Body(text, piece)) {
        ps := ps + [Passage(piece, category(piece.section))];
      }
      i := i + 1;
    }
    assert pieces[..i] == pieces;
  }

  // ----- the whole preparation

  datatype Prepared = Prepared(evidence: Evidence, used: nat, included: nat, omitted: seq<Ident>, complete: bool)

  ghost function KeysOf(text: string, ps: seq<Passage>): (keys: seq<Key>)
    ensures |keys| == |ps| && forall i :: 0 <= i < |ps| ==> keys[i] == PassageKey(text, ps[i].piece)
  {
    seq(|ps|, i requires 0 <= i < |ps| => PassageKey(text, ps[i].piece))
  }

  function TextsOf(text: string, ps: seq<Passage>): (texts: seq<string>)
    ensures |texts| == |ps| && forall i :: 0 <= i < |ps| ==> texts[i] == Body(text, ps[i].piece)
  {
    seq(|ps|, i requires 0 <= i < |ps| => Body(text, ps[i].piece))
  }

  lemma PassagesDistinct(text: string, ps: seq<Passage>)
    requires forall i, j :: 0 <= i < j < |ps| ==> ps[i].piece.stop <= ps[j].piece.start
    requires forall i :: 0 <= i < |ps| ==> ps[i].piece.start < ps[i].piece.stop <= |text|
    ensures Passages(KeysOf(text, ps), TextsOf(text, ps))
  {
    var keys := KeysOf(text, ps);
    forall i, j | 0 <= i < j < |keys| ensures keys[i] != keys[j] {
      assert keys[i].id == OfSpan(ps[i].piece.start, ps[i].piece.stop);
      assert keys[j].id == OfSpan(ps[j].piece.start, ps[j].piece.stop);
    }
  }

  /** What has been decided for the passages in `done`: `chosen` were added, the others did not fit. */
  ghost predicate Added(limit: nat, start: nat, retained: set<Key>, now: set<Key>, keys: seq<Key>, texts: seq<string>,
                        done: seq<nat>, chosen: seq<nat>, used: nat)
  {
    && |texts| == |keys| && Distinct(chosen) && (forall k :: k in chosen ==> k in done && k < |keys|)
    && now == retained + PassageKeys(keys, chosen)
    && used == start + Included(texts, chosen) <= limit
    && (forall k :: k in done && k !in chosen ==> used + Length(texts, k) > limit)
  }

  lemma AddNext(limit: nat, start: nat, retained: set<Key>, now: set<Key>, keys: seq<Key>, texts: seq<string>,
                done: seq<nat>, chosen: seq<nat>, used: nat, k: nat)
    requires Distinct(keys) && k < |keys| && k !in done
    requires Added(limit, start, retained, now, keys, texts, done, chosen, used) && used + |texts[k]| <= limit
    ensures Added(limit, start, retained, now + {keys[k]}, keys, texts, done + [k], chosen + [k], used + |texts[k]|)
  {
    NextPassageKey(keys, chosen, k);
    assert (chosen + [k])[..|chosen|] == chosen;
  }

  lemma SkipNext(limit: nat, start: nat, retained: set<Key>, now: set<Key>, keys: seq<Key>, texts: seq<string>,
                 done: seq<nat>, chosen: seq<nat>, used: nat, k: nat)
    requires k < |keys| && k !in done
    requires Added(limit, start, retained, now, keys, texts, done, chosen, used) && used + |texts[k]| > limit
    ensures Added(limit, start, retained, now, keys, texts, done + [k], chosen, used)
  {
  }

  /** Add the passage under all its categories if it fits. */
  method DecideNext(chunk: Chunk, cat: nat, limit: nat, evidence: Evidence, used: nat)
    returns (taken: bool, after: Evidence, total: nat)
    requires cat < 5
    ensures taken <==> used + |chunk.text| <= limit
    ensures after == if taken then Listing(evidence, Homes(cat), chunk) else evidence
    ensures Keys(after) == if taken then Keys(evidence) + {KeyOf(chunk)} else Keys(evidence)
    ensures total == if taken then used + |chunk.text| else used
    ensures Extends(evidence, after)
  {
    var cost := |chunk.text|;
    taken, after, total := false, evidence, used;
    if used + cost <= limit {
      after := AddPassage(evidence, Homes(cat), chunk);
      ListingKeys(evidence, Homes(cat), chunk);
      taken, total := true, used + cost;
    }
  }

  lemma NothingAdded(limit: nat, start: nat, retained: set<Key>, keys: seq<Key>, texts: seq<string>)
    requires start <= limit && |texts| == |keys|
    ensures Added(limit, start, retained, retained, keys, texts, [], [], start)
  {
    assert retained + PassageKeys(keys, []) == retained;
  }

  ghost predicate AllIn(done: seq<nat>, chosen: seq<nat>) {
    forall k :: k in done ==> k in chosen
  }

  function ChosenNext(chosen: seq<nat>, k: nat, taken: bool): seq<nat> {
    if taken then chosen + [k] else chosen
  }

  lemma Decided(limit: nat, start: nat, retained: set<Key>, now: set<Key>, keys: seq<Key>, texts: seq<string>,
                ordered: seq<nat>, i: nat, chosen: seq<nat>, used: nat, taken: bool)
    requires Distinct(keys) && i < |ordered| && Distinct(ordered) && forall k :: k in ordered ==> k < |keys|
    requires Added(limit, start, retained, now, keys, texts, ordered[..i], chosen, used)
    requires ordered[i] < |texts| && (taken <==> used + |texts[ordered[i]]| <= limit)
    ensures var k := ordered[i];
      && Added(limit, start, retained, if taken then now + {keys[k]} else now, keys, texts, ordered[..i + 1],
               ChosenNext(chosen, k, taken), if taken then used + |texts[k]| else used)
      && (AllIn(ordered[..i + 1], ChosenNext(chosen, k, taken)) <==> taken && AllIn(ordered[..i], chosen))
  {
    NextInOrder(ordered, i, chosen);
    if taken {
      AddNext(limit, start, retained, now, keys, texts, ordered[..i], chosen, used, ordered[i]);
    } else {
      SkipNext(limit, start, retained, now, keys, texts, ordered[..i], chosen, used, ordered[i]);
    }
  }

  /** The passages a walk in this order adds: each one that still fits. */
  function Fitting(ordered: seq<nat>, texts: seq<string>, start: nat, limit: nat): seq<nat> {
    if ordered == [] then []
    else
      var before, k := Fitting(ordered[..|ordered| - 1], texts, start, limit), ordered[|ordered| - 1];
      ChosenNext(before, k, start + Included(texts, before) + Length(texts, k) <= limit)
  }

  /** The retained evidence with these passages listed, in this order, under all their categories. */
  function Assembled(text: string, ps: seq<Passage>, retained: Evidence, chosen: seq<nat>): Evidence {
    if chosen == [] then retained
    else
      var before, k := Assembled(text, ps, retained, chosen[..|chosen| - 1]), chosen[|chosen| - 1];
      if k < |ps| && ps[k].cat < 5 then Listing(before, Homes(ps[k].cat), PassageChunk(text, ps[k].piece)) else before
  }

  lemma AssembledNext(text: string, ps: seq<Passage>, retained: Evidence, chosen: seq<nat>, k: nat, taken: bool)
    requires k < |ps| && ps[k].cat < 5
    ensures Assembled(text, ps, retained, ChosenNext(chosen, k, taken))
         == var before := Assembled(text, ps, retained, chosen);
            if taken then Listing(before, Homes(ps[k].cat), PassageChunk(text, ps[k].piece)) else before
  {
    assert (chosen + [k])[..|chosen|] == chosen;
  }

  lemma FittingNext(ordered: seq<nat>, texts: seq<string>, start: nat, limit: nat, i: nat)
    requires i < |ordered|
    ensures var before := Fitting(ordered[..i], texts, start, limit);
      Fitting(ordered[..i + 1], texts, start, limit)
      == ChosenNext(before, ordered[i], start + Included(texts, before) + Length(texts, ordered[i]) <= limit)
  {
    assert ordered[..i + 1][..i] == ordered[..i];
  }

  function NotAmong(chosen: seq<nat>): nat -> bool {
    (k: nat) => k !in chosen
  }

  /** Those not added, in the order of the walk. */
  function Left(ordered: seq<nat>, chosen: seq<nat>): seq<nat> {
    Filter(ordered, NotAmong(chosen))
  }

  /** What an omitted passage is reported by. */
  function SpanAt(ps: seq<Passage>): nat -> Ident {
    (k: nat) => if k < |ps| then OfSpan(ps[k].piece.start, ps[k].piece.stop) else OfSpan(0, 0)
  }

  lemma {:induction false} FilterAgrees(xs: seq<nat>, p: nat -> bool, q: nat -> bool)
    requires forall x :: x in xs ==> p(x) == q(x)
    ensures Filter(xs, p) == Filter(xs, q)
  {
    if xs != [] {
      FilterAgrees(xs[..|xs| - 1], p, q);
    }
  }

  lemma LeftNext(ordered: seq<nat>, i: nat, chosen: seq<nat>, taken: bool)
    requires i < |ordered| && Distinct(ordered) && forall k :: k in chosen ==> k in ordered[..i]
    ensures Left(ordered[..i + 1], ChosenNext(chosen, ordered[i], taken))
         == Left(ordered[..i], chosen) + (if taken then [] else [ordered[i]])
  {
    var k, more := ordered[i], ChosenNext(chosen, ordered[i], taken);
    assert ordered[..i + 1][..i] == ordered[..i];
    FilterAgrees(ordered[..i], NotAmong(chosen), NotAmong(more));
  }

  /** Exactly the passages of the walk that were not added are reported, in its order. */
  ghost predicate Reported(ps: seq<Passage>, ordered: seq<nat>, chosen: seq<nat>, omitted: seq<Ident>) {
    omitted == Map(Left(ordered, chosen), SpanAt(ps))
  }

  lemma ReportNext(ps: seq<Passage>, ordered: seq<nat>, i: nat, chosen: seq<nat>, taken: bool, omitted: seq<Ident>)
    requires i < |ordered| && Distinct(ordered) && (forall k :: k in chosen ==> k in ordered[..i]) && ordered[i] < |ps|
    requires Reported(ps, ordered[..i], chosen, omitted)
    ensures var piece := ps[ordered[i]].piece;
      Reported(ps, ordered[..i + 1], ChosenNext(chosen, ordered[i], taken),
               if taken then omitted else omitted + [OfSpan(piece.start, piece.stop)])
  {
    LeftNext(ordered, i, chosen, taken);
  }

  /** What is known of the passages, of each one's key and text. */
  ghost predicate Known(text: string, ps: seq<Passage>, keys: seq<Key>, texts: seq<string>) {
    && Passages(keys, texts) && |keys| == |ps|
    && forall k :: 0 <= k < |ps| ==>
         ps[k].cat < 5 && keys[k] == PassageKey(text, ps[k].piece) && texts[k] == Body(text, ps[k].piece)
  }

  ghost predicate Walk(ordered: seq<nat>, ps: seq<Passage>) {
    Distinct(ordered) && forall k :: k in ordered ==> k < |ps|
  }

  /** The walk over `done` chose these passages, and listed them. */
  ghost predicate Built(text: string, ps: seq<Passage>, done: seq<nat>, retained: Evidence, start: nat, limit: nat,
                        texts: seq<string>, evidence: Evidence, chosen: seq<nat>)
  {
    && chosen == Fitting(done, texts, start, limit)
    && evidence == Assembled(text, ps, retained, chosen)
    && Extends(retained, evidence)
  }

  lemma BuiltNext(text: string, ps: seq<Passage>, ordered: seq<nat>, i: nat, retained: Evidence, start: nat, limit: nat,
                  texts: seq<string>, evidence: Evidence, chosen: seq<nat>, taken: bool, after: Evidence)
    requires i < |ordered| && Built(text, ps, ordered[..i], retained, start, limit, texts, evidence, chosen)
    requires ordered[i] < |ps| && ps[ordered[i]].cat < 5
    requires taken <==> start + Included(texts, chosen) + Length(texts, ordered[i]) <= limit
    requires var chunk := PassageChunk(text, ps[ordered[i]].piece);
      after == if taken then Listing(evidence, Homes(ps[ordered[i]].cat), chunk) else evidence
    requires Extends(evidence, after)
    ensures Built(text, ps, ordered[..i + 1], retained, start, limit, texts, after, ChosenNext(chosen, ordered[i], taken))
  {
    FittingNext(ordered, texts, start, limit, i);
    AssembledNext(text, ps, retained, chosen, ordered[i], taken);
  }

  /** What has been left out is reported. */
  ghost predicate Told(ps: seq<Passage>, done: seq<nat>, chosen: seq<nat>, omitted: seq<Ident>) {
    (omitted == [] <==> AllIn(done, chosen)) && Reported(ps, done, chosen, omitted)
  }

  lemma ToldNext(ps: seq<Passage>, ordered: seq<nat>, i: nat, chosen: seq<nat>, taken: bool, omitted: seq<Ident>)
    requires i < |ordered| && Walk(ordered, ps) && (forall k :: k in chosen ==> k in ordered[..i]) && ordered[i] < |ps|
    requires Told(ps, ordered[..i], chosen, omitted)
    ensures var piece := ps[ordered[i]].piece;
      Told(ps, ordered[..i + 1], ChosenNext(chosen, ordered[i], taken),
           if taken then omitted else omitted + [OfSpan(piece.start, piece.stop)])
  {
    NextInOrder(ordered, i, chosen);
    ReportNext(ps, ordered, i, chosen, taken, omitted);
  }

  lemma WalkStarts(text: string, ps: seq<Passage>, retained: Evidence, start: nat, limit: nat,
                   keys: seq<Key>, texts: seq<string>)
    requires start <= limit && Known(text, ps, keys, texts)
    ensures Added(limit, start, Keys(retained), Keys(retained), keys, texts, [], [], start)
    ensures Built(text, ps, [], retained, start, limit, texts, retained, [])
    ensures Told(ps, [], [], [])
  {
    NothingAdded(limit, start, Keys(retained), keys, texts);
  }

  /** Add the i-th passage of the walk if it still fits, or report it. */
  method AddOne(text: string, ps: seq<Passage>, ordered: seq<nat>, i: nat, ghost retained: Evidence, ghost start: nat,
                limit: nat, ghost keys: seq<Key>, ghost texts: seq<string>, evidence: Evidence, used: nat,
                ghost chosen: seq<nat>, omitted: seq<Ident>)
    returns (evidence': Evidence, used': nat, ghost chosen': seq<nat>, omitted': seq<Ident>)
    requires Known(text, ps, keys, texts) && Walk(ordered, ps) && i < |ordered|
    requires Added(limit, start, Keys(retained), Keys(evidence), keys, texts, ordered[..i], chosen, used)
    requires Built(text, ps, ordered[..i], retained, start, limit, texts, evidence, chosen)
    requires Told(ps, ordered[..i], chosen, omitted)
    ensures Added(limit, start, Keys(retained), Keys(evidence'), keys, texts, ordered[..i + 1], chosen', used')
    ensures Built(text, ps, ordered[..i + 1], retained, start, limit, texts, evidence', chosen')
    ensures Told(ps, ordered[..i + 1], chosen', omitted')
  {
    var k := ordered[i];
    assert k in ordered;
    var chunk := PassageChunk(text, ps[k].piece);
    var taken;
    taken, evidence', used' := DecideNext(chunk, ps[k].cat, limit, evidence, used);
    Decided(limit, start, Keys(retained), Keys(evidence), keys, texts, ordered, i, chosen, used, taken);
    BuiltNext(text, ps, ordered, i, retained, start, limit, texts, evidence, chosen, taken, evidence');
    ToldNext(ps, ordered, i, chosen, taken, omitted);
    chosen' := ChosenNext(chosen, k, taken);
    omitted' := if taken then omitted else omitted + [chunk.id.value];
  }

  /** Go through the ordered passages and add each one that still fits. */
  method AddFitting(text: string, ps: seq<Passage>, ordered: seq<nat>, retained: Evidence, start: nat, limit: nat,
                    ghost keys: seq<Key>, ghost texts: seq<string>)
    returns (evidence: Evidence, used: nat, ghost chosen: seq<nat>, omitted: seq<Ident>)
    requires start <= limit && Known(text, ps, keys, texts) && Walk(ordered, ps)
    ensures Built(text, ps, ordered, retained, start, limit, texts, evidence, chosen)
    ensures Added(limit, start, Keys(retained), Keys(evidence), keys, texts, ordered, chosen, used)
    ensures Told(ps, ordered, chosen, omitted)
  {
    evidence, used, chosen, omitted := retained, start, [], [];
    WalkStarts(text, ps, retained, start, limit, keys, texts);
    var i := 0;
    assert ordered[..0] == [];
    while i < |ordered|
      invariant 0 <= i <= |ordered|
      invariant Added(limit, start, Keys(retained), Keys(evidence), keys, texts, ordered[..i], chosen, used)
      invariant Built(text, ps, ordered[..i], retained, start, limit, texts, evidence, chosen)
      invariant Told(ps, ordered[..i], chosen, omitted)
    {
      evidence, used, chosen, omitted :=
        AddOne(text, ps, ordered, i, retained, start, limit, keys, texts, evidence, used, chosen, omitted);
      i := i + 1;
    }
    assert ordered[..i] == ordered;
  }

  lemma NextInOrder(ordered: seq<nat>, i: nat, chosen: seq<nat>)
    requires i < |ordered| && Distinct(ordered) && forall k :: k in chosen ==> k in ordered[..i]
    ensures var k := ordered[i];
      && k in ordered && ordered[..i + 1] == ordered[..i] + [k] && k !in ordered[..i]
      && (AllIn(ordered[..i + 1], chosen + [k]) <==> AllIn(ordered[..i], chosen))
      && !AllIn(ordered[..i + 1], chosen)
  {
    var k := ordered[i];
    assert ordered[..i + 1] == ordered[..i] + [k];
    assert k in ordered[..i + 1];
    if AllIn(ordered[..i + 1], chosen + [k]) {
      forall j | j in ordered[..i] ensures j in chosen {
        assert j in ordered[..i + 1];
      }
    }
  }

  /**
   * The settings of one preparation. `name` and `category` are those of a section's header; `focus` is the
   * body of a retrieved chunk without its section prefix, and `squeeze` the same normalisation of a passage;
   * `mandatory` tells whether a text has a mandatory term, when there are any.
   */
  datatype Request = Request(
    limit: int,
    wholeUnits: bool,
    headers: seq<nat>,
    blank: string -> bool,
    name: int -> int,
    category: int -> nat,
    focus: string -> string,
    squeeze: string -> string,
    mandatory: Option<string -> bool>)

  // ----- passages near retrieval hits

  /** The passage holds the body of some retrieved chunk. */
  predicate Anchored(req: Request, text: string, p: Piece, evidence: Evidence) {
    exists cat :: cat in evidence && exists i :: 0 <= i < |evidence[cat]| && Hits(req, Body(text, p), evidence[cat][i])
  }

  predicate Hits(req: Request, passage: string, c: Chunk) {
    req.focus(c.text) != "" && PartOf(req.focus(c.text), req.squeeze(passage))
  }

  predicate SameSection(req: Request, a: Piece, b: Piece) {
    req.name(a.section) == req.name(b.section)
  }

  /** The passage, or the one before or after it in a section of the same name, is a hit. */
  predicate Near(req: Request, text: string, ps: seq<Passage>, evidence: Evidence, k: nat)
    requires k < |ps|
  {
    || Anchored(req, text, ps[k].piece, evidence)
    || (k > 0 && SameSection(req, ps[k - 1].piece, ps[k].piece) && Anchored(req, text, ps[k - 1].piece, evidence))
    || (k + 1 < |ps| && SameSection(req, ps[k].piece, ps[k + 1].piece) && Anchored(req, text, ps[k + 1].piece, evidence))
  }

  method FindAnchors(req: Request, text: string, ps: seq<Passage>, evidence: Evidence) returns (anchors: set<nat>)
    ensures forall k: nat :: k in anchors <==> k < |ps| && Anchored(req, text, ps[k].piece, evidence)
  {
    anchors := {};
    var i := 0;
    while i < |ps|
      invariant 0 <= i <= |ps|
      invariant forall k: nat :: k in anchors <==> k < i && Anchored(req, text, ps[k].piece, evidence)
    {
      if Anchored(req, text, ps[i].piece, evidence) {
        anchors := anchors + {i};
      }
      i := i + 1;
    }
  }

  /** The body of some retrieved chunk, not empty, stands in the normalised passage. */
  ghost predicate HoldsBody(req: Request, passage: string, evidence: Evidence) {
    exists cat, c ::
      cat in evidence && c in evidence[cat] && req.focus(c.text) != "" && StandsIn(req.focus(c.text), req.squeeze(passage))
  }

  /** The passage itself, or one right beside it under a header of the same name, holds a retrieved body. */
  ghost predicate NextToHit(req: Request, text: string, ps: seq<Passage>, evidence: Evidence, k: nat)
    requires k < |ps|
  {
    exists a: nat :: a < |ps| && Beside(req, ps, a, k) && HoldsBody(req, Body(text, ps[a].piece), evidence)
  }

  /** The same passage, or the one before or after it, under a header of the same name. */
  ghost predicate Beside(req: Request, ps: seq<Passage>, a: nat, k: nat)
    requires a < |ps| && k < |ps|
  {
    a <= k + 1 && k <= a + 1 && req.name(ps[a].piece.section) == req.name(ps[k].piece.section)
  }

  lemma AnchorHolds(req: Request, text: string, p: Piece, evidence: Evidence)
    ensures Anchored(req, text, p, evidence) <==> HoldsBody(req, Body(text, p), evidence)
  {
    forall c: Chunk ensures PartOf(req.focus(c.text), req.squeeze(Body(text, p)))
                            <==> StandsIn(req.focus(c.text), req.squeeze(Body(text, p)))
    {
      PartStands(req.focus(c.text), req.squeeze(Body(text, p)));
    }
    if HoldsBody(req, Body(text, p), evidence) {
      var cat, c :| cat in evidence && c in evidence[cat]
                    && req.focus(c.text) != "" && StandsIn(req.focus(c.text), req.squeeze(Body(text, p)));
      var i :| 0 <= i < |evidence[cat]| && evidence[cat][i] == c;
      assert Hits(req, Body(text, p), evidence[cat][i]);
    }
    if Anchored(req, text, p, evidence) {
      var cat :| cat in evidence && exists i :: 0 <= i < |evidence[cat]| && Hits(req, Body(text, p), evidence[cat][i]);
      var i :| 0 <= i < |evidence[cat]| && Hits(req, Body(text, p), evidence[cat][i]);
      assert evidence[cat][i] in evidence[cat];
    }
  }

  lemma NearMeans(req: Request, text: string, ps: seq<Passage>, evidence: Evidence, k: nat)
    requires k < |ps|
    ensures Near(req, text, ps, evidence, k) <==> NextToHit(req, text, ps, evidence, k)
  {
    if Near(req, text, ps, evidence, k) {
      NearIsNext(req, text, ps, evidence, k);
    }
    if NextToHit(req, text, ps, evidence, k) {
      var a: nat :| a < |ps| && Beside(req, ps, a, k) && HoldsBody(req, Body(text, ps[a].piece), evidence);
      AnchorHolds(req, text, ps[a].piece, evidence);
      NextIsNear(req, text, ps, evidence, k, a);
    }
  }

  lemma NearIsNext(req: Request, text: string, ps: seq<Passage>, evidence: Evidence, k: nat)
    requires k < |ps| && Near(req, text, ps, evidence, k)
    ensures NextToHit(req, text, ps, evidence, k)
  {
    var a: nat := if Anchored(req, text, ps[k].piece, evidence) then k
                  else if k > 0 && SameSection(req, ps[k - 1].piece, ps[k].piece)
                          && Anchored(req, text, ps[k - 1].piece, evidence) then k - 1 else k + 1;
    AnchorHolds(req, text, ps[a].piece, evidence);
    assert Beside(req, ps, a, k);
  }

  lemma NextIsNear(req: Request, text: string, ps: seq<Passage>, evidence: Evidence, k: nat, a: nat)
    requires k < |ps| && a < |ps| && Beside(req, ps, a, k) && Anchored(req, text, ps[a].piece, evidence)
    ensures Near(req, text, ps, evidence, k)
  {
    if a < k {
      assert a == k - 1;
    } else if a > k {
      assert a == k + 1;
    }
  }

  /** An anchor and its neighbours in sections of the same name. */
  function Around(req: Request, ps: seq<Passage>, a: nat): set<nat>
    requires a < |ps|
  {
    {a} + (if a > 0 && SameSection(req, ps[a - 1].piece, ps[a].piece) then {a - 1} else {})
    + (if a + 1 < |ps| && SameSection(req, ps[a].piece, ps[a + 1].piece) then {a + 1} else {})
  }

  /** The hits and their neighbours, collected from the hits outwards. */
  method FindNearby(req: Request, text: string, ps: seq<Passage>, evidence: Evidence) returns (nearby: set<nat>)
    ensures nearby == NearbyOf(req, text, ps, evidence)
    ensures forall k: nat :: k in nearby <==> k < |ps| && NextToHit(req, text, ps, evidence, k)
  {
    forall k: nat | k < |ps| ensures Near(req, text, ps, evidence, k) <==> NextToHit(req, text, ps, evidence, k) {
      NearMeans(req, text, ps, evidence, k);
    }
    var anchors := FindAnchors(req, text, ps, evidence);
    nearby := {};
    var a := 0;
    while a < |ps|
      invariant 0 <= a <= |ps|
      invariant nearby == NearbyUpTo(req, text, ps, evidence, a)
    {
      NextAnchor(req, text, ps, evidence, a);
      if a in anchors {
        nearby := nearby + Around(req, ps, a);
      }
      a := a + 1;
    }
    AllAnchors(req, text, ps, evidence);
  }

  function NearbyUpTo(req: Request, text: string, ps: seq<Passage>, evidence: Evidence, n: nat): set<nat> {
    set k: nat | k < |ps| && NearUpTo(req, text, ps, evidence, k, n)
  }

  lemma NextAnchor(req: Request, text: string, ps: seq<Passage>, evidence: Evidence, a: nat)
    requires a < |ps|
    ensures a == 0 ==> NearbyUpTo(req, text, ps, evidence, a) == {}
    ensures NearbyUpTo(req, text, ps, evidence, a + 1)
         == NearbyUpTo(req, text, ps, evidence, a)
            + if Anchored(req, text, ps[a].piece, evidence) then Around(req, ps, a) else {}
  {
    forall k: nat | k < |ps|
      ensures NearUpTo(req, text, ps, evidence, k, a + 1)
        <==> NearUpTo(req, text, ps, evidence, k, a)
             || (Anchored(req, text, ps[a].piece, evidence) && k in Around(req, ps, a))
    {
    }
  }

  lemma AllAnchors(req: Request, text: string, ps: seq<Passage>, evidence: Evidence)
    ensures NearbyUpTo(req, text, ps, evidence, |ps|) == NearbyOf(req, text, ps, evidence)
  {
    forall k: nat | k < |ps|
      ensures NearUpTo(req, text, ps, evidence, k, |ps|) <==> Near(req, text, ps, evidence, k)
    {
    }
  }

  /** Near, looking only at hits among the first `n` passages. */
  predicate NearUpTo(req: Request, text: string, ps: seq<Passage>, evidence: Evidence, k: nat, n: nat)
    requires k < |ps|
  {
    || (k < n && Anchored(req, text, ps[k].piece, evidence))
    || (0 < k <= n && SameSection(req, ps[k - 1].piece, ps[k].piece) && Anchored(req, text, ps[k - 1].piece, evidence))
    || (k + 1 < |ps| && k + 1 < n && SameSection(req, ps[k].piece, ps[k + 1].piece)
        && Anchored(req, text, ps[k + 1].piece, evidence))
  }

  function NearbyOf(req: Request, text: string, ps: seq<Passage>, evidence: Evidence): set<nat> {
    set k: nat | k < |ps| && Near(req, text, ps, evidence, k)
  }

  /** Which passages have a mandatory term, by position. */
  function MandatoryAt(req: Request, text: string, ps: seq<Passage>): Option<nat -> bool> {
    if req.mandatory.None? then None
    else Some((k: nat) => k < |ps| && req.mandatory.value(Body(text, ps[k].piece)))
  }

  function ArrangedFor(req: Request, text: string, ps: seq<Passage>, evidence: Evidence): seq<nat> {
    Arranged(CatsOf(ps), NearbyOf(req, text, ps, evidence), MandatoryAt(req, text, ps))
  }

  ghost predicate ValidRequest(req: Request, text: string) {
    Boundaries(req.headers, |text|) && forall s :: req.category(s) < 5
  }

  /**
   * What one preparation did: what it retained, through which evictions and without which chunks, the
   * passages it saw and the ones it added.
   */
  datatype Trace = Trace(
    retained: Evidence, states: seq<Evidence>, gone: seq<Ident>, passages: seq<Passage>, added: seq<nat>)

  function CatsOf(ps: seq<Passage>): (cats: seq<nat>)
    ensures |cats| == |ps| && forall i :: 0 <= i < |ps| ==> cats[i] == ps[i].cat
  {
    seq(|ps|, i requires 0 <= i < |ps| => ps[i].cat)
  }

  /** The tiling of the text by its headers. */
  ghost predicate TiledBy(req: Request, text: string, pieces: seq<Piece>)
    requires Boundaries(req.headers, |text|)
  {
    && Tiles(pieces, 0, |text|) && Joined(text, pieces) == text
    && forall i :: 0 <= i < |pieces| ==> PieceOk(text, req.headers, pieces[i], req.wholeUnits)
  }

  /** How the result came about: by eviction, then by one walk over the arranged passages. */
  ghost predicate Walked(req: Request, text: string, evidence: Evidence, order: seq<string>, p: Prepared, t: Trace)
    requires Ordered(evidence, order) && req.limit >= 1 && Boundaries(req.headers, |text|)
  {
    && (exists pieces :: TiledBy(req, text, pieces) && PassagesOf(text, req.blank, pieces, t.passages))
    && CatsRight(req.category, t.passages)
    && t.retained == Evicted(evidence, order, req.limit)
    && EvictedInTurn(evidence, t.retained, t.states, t.gone, order, req.limit)
    && |t.gone| <= |p.omitted| && p.omitted[..|t.gone|] == t.gone
    && Reported(t.passages, ArrangedFor(req, text, t.passages, t.retained), t.added, p.omitted[|t.gone|..])
    && t.added == Fitting(ArrangedFor(req, text, t.passages, t.retained), TextsOf(text, t.passages),
                          UniqueChars(t.retained), req.limit)
    && p.evidence == Assembled(text, t.passages, t.retained, t.added)
  }

  /** What it amounts to. */
  ghost predicate Explains(req: Request, text: string, evidence: Evidence, p: Prepared, t: Trace) {
    && Prefixes(t.retained, evidence)
    && (UniqueChars(evidence) <= req.limit <==> t.retained == evidence)
    && (exists pieces :: Tiles(pieces, 0, |text|) && Joined(text, pieces) == text
                         && PassagesOf(text, req.blank, pieces, t.passages))
    && Distinct(t.added) && (forall k :: k in t.added ==> k < |t.passages|)
    && Keys(p.evidence) == Keys(t.retained) + PassageKeys(KeysOf(text, t.passages), t.added)
    && Extends(t.retained, p.evidence)
    && p.used == UniqueChars(t.retained) + p.included <= req.limit
    && p.included == Included(TextsOf(text, t.passages), t.added)
    && (forall k :: 0 <= k < |t.passages| && k !in t.added ==>
          p.used + |Body(text, t.passages[k].piece)| > req.limit)
    && (p.complete <==> t.retained == evidence && forall k :: 0 <= k < |t.passages| ==> k in t.added)
  }

  /**
   * Prepare the context: evict until the retrieved chunks fit, tile the CV, add the passages that
   * fit. The total never exceeds the limit, no omitted passage would still fit, and the context is
   * complete exactly when every retrieved chunk and every nonblank passage is in it.
   */
  method PrepareContext(req: Request, text: string, evidence: Evidence, order: seq<string>)
    returns (prepared: Option<Prepared>, ghost trace: Trace)
    requires ValidRequest(req, text) && Ordered(evidence, order)
    ensures prepared.None? <==> req.limit < 1
    ensures prepared.Some? ==> Walked(req, text, evidence, order, prepared.value, trace)
    ensures prepared.Some? ==> Explains(req, text, evidence, prepared.value, trace)
  {
    trace := Trace(map[], [], [], [], []);
    if req.limit < 1 {
      return None, trace;
    }
    var kept, start, evicted, states := Evict(evidence, order, req.limit);
    var pieces := TileCv(text, req.headers, req.wholeUnits);
    var ps := NonBlank(text, req.blank, req.category, pieces);
    var nearby := FindNearby(req, text, ps, kept);
    var ordered := OrderPassages(CatsOf(ps), nearby, MandatoryAt(req, text, ps));
    PassagesDistinct(text, ps);
    ghost var keys, texts := KeysOf(text, ps), TextsOf(text, ps);
    var after, used, chosen, skipped := AddFitting(text, ps, ordered, kept, start, req.limit, keys, texts);
    var omitted := evicted + skipped;
    prepared := Some(Prepared(after, used, used - start, omitted, omitted == []));
    trace := Trace(kept, states, evicted, ps, chosen);
    ItWalked(req, text, evidence, order, prepared.value, trace, pieces, skipped);
    ItExplains(req, text, evidence, prepared.value, trace, pieces, evicted, ordered, skipped);
  }

  lemma ItWalked(req: Request, text: string, evidence: Evidence, order: seq<string>, p: Prepared, t: Trace,
                 pieces: seq<Piece>, skipped: seq<Ident>)
    requires Ordered(evidence, order) && req.limit >= 1 && Boundaries(req.headers, |text|)
    requires TiledBy(req, text, pieces) && PassagesOf(text, req.blank, pieces, t.passages)
    requires CatsRight(req.category, t.passages) && t.retained == Evicted(evidence, order, req.limit)
    requires EvictedInTurn(evidence, t.retained, t.states, t.gone, order, req.limit)
    requires p.omitted == t.gone + skipped
    requires Reported(t.passages, ArrangedFor(req, text, t.passages, t.retained), t.added, skipped)
    requires t.added == Fitting(ArrangedFor(req, text, t.passages, t.retained), TextsOf(text, t.passages),
                                UniqueChars(t.retained), req.limit)
    requires p.evidence == Assembled(text, t.passages, t.retained, t.added)
    ensures Walked(req, text, evidence, order, p, t)
  {
    assert p.omitted[|t.gone|..] == skipped;
  }

  lemma ItExplains(req: Request, text: string, evidence: Evidence, p: Prepared, t: Trace, pieces: seq<Piece>,
                   evicted: seq<Ident>, ordered: seq<nat>, skipped: seq<Ident>)
    requires Prefixes(t.retained, evidence) && (evicted == [] <==> t.retained == evidence)
    requires UniqueChars(evidence) <= req.limit <==> evicted == []
    requires Tiles(pieces, 0, |text|) && Joined(text, pieces) == text && PassagesOf(text, req.blank, pieces, t.passages)
    requires forall k: nat :: k in ordered <==> k < |t.passages|
    requires req.limit >= 0
             && Added(req.limit, UniqueChars(t.retained), Keys(t.retained), Keys(p.evidence), KeysOf(text, t.passages),
                      TextsOf(text, t.passages), ordered, t.added, p.used)
    requires Extends(t.retained, p.evidence) && p.included == p.used - UniqueChars(t.retained)
    requires (skipped == [] <==> AllIn(ordered, t.added)) && (p.complete <==> evicted + skipped == [])
    ensures Explains(req, text, evidence, p, t)
  {
    OmittedDoNotFit(req.limit, text, t, p.used, ordered);
    AllAdded(ordered, t.added, |t.passages|);
    NothingLost(evicted, skipped);
  }

  lemma NothingLost(evicted: seq<Ident>, skipped: seq<Ident>)
    ensures evicted + skipped == [] <==> evicted == [] && skipped == []
  {
    assert |evicted + skipped| == |evicted| + |skipped|;
  }

  lemma AllAdded(ordered: seq<nat>, added: seq<nat>, n: nat)
    requires forall k: nat :: k in ordered <==> k < n
    ensures AllIn(ordered, added) <==> forall k :: 0 <= k < n ==> k in added
  {
    if AllIn(ordered, added) {
      forall k | 0 <= k < n ensures k in added {
        assert k in ordered;
      }
    }
  }

  lemma OmittedDoNotFit(limit: int, text: string, t: Trace, used: nat, ordered: seq<nat>)
    requires forall k: nat :: k in ordered <==> k < |t.passages|
    requires forall k :: k in ordered && k !in t.added ==> used + Length(TextsOf(text, t.passages), k) > limit
    ensures forall k :: 0 <= k < |t.passages| && k !in t.added ==> used + |Body(text, t.passages[k].piece)| > limit
  {
    forall k | 0 <= k < |t.passages| && k !in t.added ensures used + |Body(text, t.passages[k].piece)| > limit {
      assert k in ordered;
    }
  }

  lemma PassagesOfWalk(req: Request, text: string, evidence: Evidence, p: Prepared, t: Trace)
    requires Explains(req, text, evidence, p, t)
    ensures Passages(KeysOf(text, t.passages), TextsOf(text, t.passages))
  {
    var pieces :| Tiles(pieces, 0, |text|) && Joined(text, pieces) == text
                  && PassagesOf(text, req.blank, pieces, t.passages);
    PassagesDistinct(text, t.passages);
  }

  /** The total exceeds a fresh count only by passages that were retained as chunks already. */
  lemma TotalOfWalk(req: Request, text: string, evidence: Evidence, p: Prepared, t: Trace)
    requires Explains(req, text, evidence, p, t)
    ensures UniqueChars(p.evidence) <= p.used <= req.limit
    ensures p.used == UniqueChars(p.evidence) <==>
              forall k :: k in t.added ==> PassageKey(text, t.passages[k].piece) !in Keys(t.retained)
  {
    PassagesOfWalk(req, text, evidence, p, t);
    var keys := KeysOf(text, t.passages);
    TotalOfAdded(Keys(t.retained), keys, TextsOf(text, t.passages), t.added);
    assert Keys(t.retained) !! PassageKeys(keys, t.added) <==> forall k :: k in t.added ==> keys[k] !in Keys(t.retained);
  }

  /** Chunks that retrieval returned: none of them is a passage of the whole CV. */
  ghost predicate OnlyRetrieved(evidence: Evidence) {
    forall cat, c :: cat in evidence && c in evidence[cat] ==> c.document.Retrieved?
  }

  /** The total kept while adding passages is what counting the final evidence afresh gives. */
  lemma TotalIsTheCount(req: Request, text: string, evidence: Evidence, p: Prepared, t: Trace)
    requires Explains(req, text, evidence, p, t) && OnlyRetrieved(evidence)
    ensures p.used == UniqueChars(p.evidence) <= req.limit
  {
    TotalOfWalk(req, text, evidence, p, t);
    forall k | k in t.added ensures PassageKey(text, t.passages[k].piece) !in Keys(t.retained) {
      forall cat, c | cat in t.retained && c in t.retained[cat] ensures c.document.Retrieved? {
        assert c in evidence[cat];
      }
    }
  }
}
