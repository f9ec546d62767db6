/**
 * Bounding the prompt: while it does not fit, the whole source of least priority leaves every category
 * that lists it. Whether a prompt fits is an arbitrary function of the evidence.
 */
module PromptBudget {
  import opened Prelude
  import opened Context

  datatype Metadata = Metadata(complete: bool, chars: nat, omitted: seq<Ident>, removed: nat)

  datatype Bounded = Bounded(evidence: Evidence, metadata: Metadata)

  function NotIn(gone: set<Key>): Chunk -> bool {
    (c: Chunk) => KeyOf(c) !in gone
  }

  /** Every category without the chunks of these sources. */
  function Without(evidence: Evidence, gone: set<Key>): Evidence {
    map cat | cat in evidence :: Filter(evidence[cat], NotIn(gone))
  }

  function ListedChunks(evidence: Evidence, order: seq<string>): nat {
    if order == [] then 0
    else
      var cat := order[|order| - 1];
      ListedChunks(evidence, order[..|order| - 1]) + (if cat in evidence then |evidence[cat]| else 0)
  }

  lemma {:induction false} FilterFilter(xs: seq<Chunk>, gone: set<Key>, k: Key)
    ensures Filter(Filter(xs, NotIn(gone)), NotIn({k})) == Filter(xs, NotIn(gone + {k}))
  {
    if xs != [] {
      var n := |xs| - 1;
      FilterFilter(xs[..n], gone, k);
      var kept := Filter(xs[..n], NotIn(gone));
      assert (kept + [xs[n]])[..|kept|] == kept;
    }
  }

  lemma WithoutMore(evidence: Evidence, gone: set<Key>, k: Key)
    ensures Without(Without(evidence, gone), {k}) == Without(evidence, gone + {k})
  {
    forall cat | cat in evidence
      ensures Without(Without(evidence, gone), {k})[cat] == Without(evidence, gone + {k})[cat]
    {
      FilterFilter(evidence[cat], gone, k);
    }
  }

  lemma WithoutNothing(evidence: Evidence)
    ensures Without(evidence, {}) == evidence
  {
    forall cat | cat in evidence ensures Without(evidence, {})[cat] == evidence[cat] {
      FilterAll(evidence[cat], NotIn({}));
    }
  }

  lemma WithoutKeys(evidence: Evidence, gone: set<Key>)
    ensures Keys(Without(evidence, gone)) == Keys(evidence) - gone
  {
    var after := Without(evidence, gone);
    forall k ensures k in Keys(after) <==> k in Keys(evidence) - gone {
      if k in Keys(after) {
        var cat, c :| cat in after && c in after[cat] && KeyOf(c) == k;
        FilterMembers(evidence[cat], NotIn(gone));
      }
      if k in Keys(evidence) - gone {
        var cat, c :| cat in evidence && c in evidence[cat] && KeyOf(c) == k;
        FilterMembers(evidence[cat], NotIn(gone));
        assert c in after[cat];
      }
    }
  }

  // ----- priorities

  /** Whether a text has a mandatory term, and case folding. */
  datatype Rules = Rules(mandatory: string -> bool, fold: string -> string)

  /** What keeps a source: being all a category has, mandatory terms, the CV itself, applied sections, brevity. */
  datatype Priority = Priority(last: bool, mandatory: bool, cv: bool, applied: bool, size: int)

  predicate Less(a: Priority, b: Priority) {
    if a.last != b.last then b.last
    else if a.mandatory != b.mandatory then b.mandatory
    else if a.cv != b.cv then b.cv
    else if a.applied != b.applied then b.applied
    else a.size < b.size
  }

  predicate ListedUnder(evidence: Evidence, cat: string, key: Key) {
    cat in evidence && exists i :: 0 <= i < |evidence[cat]| && KeyOf(evidence[cat][i]) == key
  }

  function PriorityOf(rules: Rules, evidence: Evidence, key: Key): Priority {
    Priority(
      exists cat :: cat in evidence && |evidence[cat]| == 1 && ListedUnder(evidence, cat, key),
      rules.mandatory(rules.fold(key.text)),
      key.document.WholeCv?,
      ListedUnder(evidence, "EXPERIENCE", key) || ListedUnder(evidence, "PROJECTS", key),
      -|rules.fold(key.text)|)
  }

  function KeysOfChunks(chunks: seq<Chunk>): seq<Key> {
    Map(chunks, (c: Chunk) => KeyOf(c))
  }

  /** The sources in the order in which the categories list them. */
  function ListedKeys(evidence: Evidence, order: seq<string>): seq<Key> {
    if order == [] then []
    else
      var cat := order[|order| - 1];
      ListedKeys(evidence, order[..|order| - 1]) + (if cat in evidence then KeysOfChunks(evidence[cat]) else [])
  }

  /** The first source of least priority. */
  function FirstLeast(rules: Rules, evidence: Evidence, keys: seq<Key>): Key
    requires keys != []
  {
    if |keys| == 1 then keys[0]
    else
      var before, last := FirstLeast(rules, evidence, keys[..|keys| - 1]), keys[|keys| - 1];
      if Less(PriorityOf(rules, evidence, last), PriorityOf(rules, evidence, before)) then last else before
  }

  /** Nothing has less priority, and nothing listed earlier has as little. */
  ghost predicate IsFirstLeast(rules: Rules, evidence: Evidence, keys: seq<Key>, key: Key) {
    && key in keys
    && (forall k :: k in keys ==> !Less(PriorityOf(rules, evidence, k), PriorityOf(rules, evidence, key)))
    && exists i :: 0 <= i < |keys| && keys[i] == key
         && forall j :: 0 <= j < i ==> Less(PriorityOf(rules, evidence, key), PriorityOf(rules, evidence, keys[j]))
  }

  lemma LessIsOrder(a: Priority, b: Priority, c: Priority)
    ensures Less(a, b) && Less(b, c) ==> Less(a, c)
    ensures !Less(a, a) && (Less(a, b) ==> !Less(b, a))
    ensures !Less(a, b) && !Less(b, c) ==> !Less(a, c)
    ensures Less(a, b) && !Less(c, b) ==> Less(a, c)
  {
  }

  lemma {:induction false} FirstLeastIs(rules: Rules, evidence: Evidence, keys: seq<Key>)
    requires keys != []
    ensures IsFirstLeast(rules, evidence, keys, FirstLeast(rules, evidence, keys))
  {
    var n := |keys| - 1;
    if n == 0 {
      assert keys[0] == FirstLeast(rules, evidence, keys);
      LessIsOrder(PriorityOf(rules, evidence, keys[0]), PriorityOf(rules, evidence, keys[0]), PriorityOf(rules, evidence, keys[0]));
    } else {
      var front := keys[..n];
      FirstLeastIs(rules, evidence, front);
      LastIsConsidered(rules, evidence, keys, FirstLeast(rules, evidence, front));
    }
  }

  lemma LastIsConsidered(rules: Rules, evidence: Evidence, keys: seq<Key>, before: Key)
    requires |keys| > 1 && IsFirstLeast(rules, evidence, keys[..|keys| - 1], before)
    ensures var last := keys[|keys| - 1];
      IsFirstLeast(rules, evidence, keys,
        if Less(PriorityOf(rules, evidence, last), PriorityOf(rules, evidence, before)) then last else before)
  {
    var n := |keys| - 1;
    var front, last := keys[..n], keys[n];
    var p, q := PriorityOf(rules, evidence, before), PriorityOf(rules, evidence, last);
    var i :| 0 <= i < |front| && front[i] == before
             && forall j :: 0 <= j < i ==> Less(p, PriorityOf(rules, evidence, front[j]));
    assert keys[i] == before && forall j :: 0 <= j < n ==> front[j] == keys[j];
    forall k | k in keys ensures k == last || k in front {
      var j :| 0 <= j < |keys| && keys[j] == k;
    }
    LessIsOrder(q, q, q);
    if Less(q, p) {
      forall k | k in front ensures Less(q, PriorityOf(rules, evidence, k)) {
        LessIsOrder(q, p, PriorityOf(rules, evidence, k));
      }
      forall j | 0 <= j < n ensures Less(q, PriorityOf(rules, evidence, keys[j])) {
        assert front[j] in front;
      }
      assert keys[n] == last;
    }
  }

  lemma {:induction false} ListedKeysAre(evidence: Evidence, order: seq<string>, key: Key)
    ensures key in ListedKeys(evidence, order) <==> exists i :: 0 <= i < |order| && ListedUnder(evidence, order[i], key)
  {
    if order != [] {
      var n := |order| - 1;
      ListedKeysAre(evidence, order[..n], key);
      var before, own := ListedKeys(evidence, order[..n]), if order[n] in evidence then KeysOfChunks(evidence[order[n]]) else [];
      assert key in own <==> ListedUnder(evidence, order[n], key) by {
        if key in own {
          var i :| 0 <= i < |own| && own[i] == key;
          assert KeyOf(evidence[order[n]][i]) == key;
        }
        if ListedUnder(evidence, order[n], key) {
          var i :| 0 <= i < |evidence[order[n]]| && KeyOf(evidence[order[n]][i]) == key;
          assert own[i] == key;
        }
      }
      if i :| 0 <= i < n && ListedUnder(evidence, order[..n][i], key) {
        assert order[i] == order[..n][i];
      }
    }
  }

  /** Listed in order, the sources are the sources. */
  lemma ListedKeysAreKeys(evidence: Evidence, order: seq<string>, key: Key)
    requires Ordered(evidence, order)
    ensures key in ListedKeys(evidence, order) <==> key in Keys(evidence)
  {
    ListedKeysAre(evidence, order, key);
    if key in Keys(evidence) {
      var cat, c :| cat in evidence && c in evidence[cat] && KeyOf(c) == key;
      var j :| 0 <= j < |evidence[cat]| && evidence[cat][j] == c;
      assert cat in order && ListedUnder(evidence, cat, key);
      var i :| 0 <= i < |order| && order[i] == cat;
    }
    if i :| 0 <= i < |order| && ListedUnder(evidence, order[i], key) {
      assert evidence[order[i]] == evidence[order[i]];
      var j :| 0 <= j < |evidence[order[i]]| && KeyOf(evidence[order[i]][j]) == key;
      assert evidence[order[i]][j] in evidence[order[i]];
    }
  }

  /** The source has left the first `i` categories, `n` chunks in all. */
  ghost predicate Removing(evidence: Evidence, after: Evidence, order: seq<string>, i: nat, key: Key, n: nat)
    requires i <= |order|
  {
    && after.Keys == evidence.Keys
    && (forall k :: 0 <= k < |order| ==> order[k] in evidence)
    && (forall k :: 0 <= k < i ==> after[order[k]] == Filter(evidence[order[k]], NotIn({key})))
    && (forall k :: i <= k < |order| ==> after[order[k]] == evidence[order[k]])
    && ListedChunks(after, order[..i]) + n == ListedChunks(evidence, order[..i])
  }

  lemma RemoveNext(evidence: Evidence, after: Evidence, order: seq<string>, i: nat, key: Key, n: nat, kept: seq<Chunk>, m: nat)
    requires i < |order| && Distinct(order) && Removing(evidence, after, order, i, key, n)
    requires kept == Filter(evidence[order[i]], NotIn({key})) && |kept| + m == |evidence[order[i]]|
    ensures Removing(evidence, after[order[i] := kept], order, i + 1, key, n + m)
  {
    assert order[..i + 1][..i] == order[..i];
    assert forall k :: 0 <= k < i ==> order[k] != order[i];
    assert order[i] !in order[..i];
    ListedElsewhere(after, order[i], kept, order[..i]);
    assert after[order[i] := kept].Keys == after.Keys;
  }

  lemma RemovedEverywhere(evidence: Evidence, after: Evidence, order: seq<string>, key: Key, n: nat)
    requires Ordered(evidence, order) && Removing(evidence, after, order, |order|, key, n)
    ensures after == Without(evidence, {key})
    ensures ListedChunks(after, order) + n == ListedChunks(evidence, order)
  {
    assert order[..|order|] == order;
    forall cat | cat in after ensures after[cat] == Without(evidence, {key})[cat] {
      assert cat in order;
      var k :| 0 <= k < |order| && order[k] == cat;
    }
  }

  /** Take a source out of every category; returns the identities of the chunks that went. */
  method RemoveSource(evidence: Evidence, order: seq<string>, key: Key) returns (after: Evidence, gone: seq<Ident>)
    requires Ordered(evidence, order)
    ensures after == Without(evidence, {key})
    ensures forall i :: 0 <= i < |gone| ==> gone[i] == key.id
    ensures ListedChunks(after, order) + |gone| == ListedChunks(evidence, order)
  {
    after, gone := evidence, [];
    assert forall k :: 0 <= k < |order| ==> order[k] in order;
    var i := 0;
    while i < |order|
      invariant 0 <= i <= |order| && Removing(evidence, after, order, i, key, |gone|)
      invariant forall k :: 0 <= k < |gone| ==> gone[k] == key.id
    {
      var kept, dropped := Partition(after[order[i]], key);
      RemoveNext(evidence, after, order, i, key, |gone|, kept, |dropped|);
      after := after[order[i] := kept];
      gone := gone + dropped;
      i := i + 1;
    }
    RemovedEverywhere(evidence, after, order, key, |gone|);
  }

  lemma {:induction false} ListedElsewhere(evidence: Evidence, cat: string, chunks: seq<Chunk>, order: seq<string>)
    requires cat !in order
    ensures ListedChunks(evidence[cat := chunks], order) == ListedChunks(evidence, order)
  {
    if order != [] {
      assert order[|order| - 1] in order;
      assert forall d :: d in order[..|order| - 1] ==> d in order;
      ListedElsewhere(evidence, cat, chunks, order[..|order| - 1]);
    }
  }

  method Partition(chunks: seq<Chunk>, key: Key) returns (kept: seq<Chunk>, dropped: seq<Ident>)
    ensures kept == Filter(chunks, NotIn({key}))
    ensures |kept| + |dropped| == |chunks| && forall i :: 0 <= i < |dropped| ==> dropped[i] == key.id
  {
    kept, dropped := [], [];
    var i := 0;
    while i < |chunks|
      invariant 0 <= i <= |chunks| && kept == Filter(chunks[..i], NotIn({key}))
      invariant |kept| + |dropped| == i && forall k :: 0 <= k < |dropped| ==> dropped[k] == key.id
    {
      assert chunks[..i + 1][..i] == chunks[..i];
      if KeyOf(chunks[i]) == key {
        dropped := dropped + [KeyOf(chunks[i]).id];
      } else {
        kept := kept + [chunks[i]];
      }
      i := i + 1;
    }
    assert chunks[..i] == chunks;
  }

  /** Nothing listed under any category. */
  function Emptied(evidence: Evidence): Evidence {
    map cat | cat in evidence :: []
  }

  lemma NoKeysLeft(evidence: Evidence)
    ensures Keys(evidence) == {} ==> evidence == Emptied(evidence)
  {
    forall cat | cat in evidence && evidence[cat] != [] ensures Keys(evidence) != {} {
      assert KeyOf(evidence[cat][0]) in Keys(evidence);
    }
  }

  lemma NothingLeft(evidence: Evidence, current: Evidence, gone: set<Key>)
    requires current == Without(evidence, gone) && gone <= Keys(evidence) && Keys(current) == {}
    ensures current == Emptied(evidence) && gone == Keys(evidence)
  {
    NoKeysLeft(current);
    WithoutKeys(evidence, gone);
    forall k | k in Keys(evidence) ensures k in gone {
      assert k !in Keys(evidence) - gone;
    }
    assert Emptied(current) == Emptied(evidence);
  }

  /** Where the loop stands: these sources are gone, and the metadata says so. */
  ghost predicate Bounding(evidence: Evidence, order: seq<string>, start: Metadata, current: Evidence,
                           metadata: Metadata, gone: set<Key>)
  {
    && current == Without(evidence, gone) && gone <= Keys(evidence)
    && (gone != {} ==> metadata.chars == UniqueChars(current))
    && (metadata.complete <==> start.complete && gone == {})
    && metadata.removed + ListedChunks(current, order) == start.removed + ListedChunks(evidence, order)
    && |metadata.omitted| + start.removed == |start.omitted| + metadata.removed
  }

  /** One source after the other went, each the first of least priority of what was left while that did not fit. */
  ghost predicate Greedy(evidence: Evidence, order: seq<string>, fits: Evidence -> bool, rules: Rules, path: seq<Key>) {
    forall i :: 0 <= i < |path| ==> HadToGo(Without(evidence, Elements(path[..i])), order, fits, rules, path[i])
  }

  ghost predicate HadToGo(left: Evidence, order: seq<string>, fits: Evidence -> bool, rules: Rules, key: Key) {
    !fits(left) && IsFirstLeast(rules, left, ListedKeys(left, order), key)
  }

  lemma GreedyNext(evidence: Evidence, order: seq<string>, fits: Evidence -> bool, rules: Rules, path: seq<Key>, key: Key)
    requires Greedy(evidence, order, fits, rules, path)
    requires HadToGo(Without(evidence, Elements(path)), order, fits, rules, key)
    ensures Greedy(evidence, order, fits, rules, path + [key]) && Elements(path + [key]) == Elements(path) + {key}
  {
    var more := path + [key];
    forall i | 0 <= i < |more| ensures HadToGo(Without(evidence, Elements(more[..i])), order, fits, rules, more[i]) {
      assert more[..i] == path[..i];
      assert path[..|path|] == path;
    }
  }

  /** The source is all that some category has left. */
  ghost predicate Sole(left: Evidence, k: Key) {
    exists cat :: cat in left && |left[cat]| == 1 && KeyOf(left[cat][0]) == k
  }

  /** The source is listed as experience or as a project. */
  ghost predicate AppliedSource(left: Evidence, k: Key) {
    || ("EXPERIENCE" in left && exists c :: c in left["EXPERIENCE"] && KeyOf(c) == k)
    || ("PROJECTS" in left && exists c :: c in left["PROJECTS"] && KeyOf(c) == k)
  }

  /**
   * What the removal of `key` instead of `k` says: a source that is all a category has goes only when every
   * source is; among equals in that one with a mandatory term only when all have one; then a passage of the CV
   * only when all are; then an applied source only when all are; and at last the longest text.
   */
  ghost predicate GoesBefore(rules: Rules, left: Evidence, key: Key, k: Key) {
    var mandatory := (x: Key) => rules.mandatory(rules.fold(x.text));
    && (Sole(left, key) ==> Sole(left, k))
    && ((Sole(left, key) <==> Sole(left, k)) ==>
          && (mandatory(key) ==> mandatory(k))
          && ((mandatory(key) <==> mandatory(k)) ==>
                && (key.document.WholeCv? ==> k.document.WholeCv?)
                && ((key.document.WholeCv? <==> k.document.WholeCv?) ==>
                      && (AppliedSource(left, key) ==> AppliedSource(left, k))
                      && ((AppliedSource(left, key) <==> AppliedSource(left, k)) ==>
                            |rules.fold(key.text)| >= |rules.fold(k.text)|))))
  }

  lemma SoleIs(rules: Rules, left: Evidence, k: Key)
    ensures Sole(left, k) <==> PriorityOf(rules, left, k).last
  {
    if cat :| cat in left && |left[cat]| == 1 && ListedUnder(left, cat, k) {
      assert KeyOf(left[cat][0]) == k;
    }
    if cat :| cat in left && |left[cat]| == 1 && KeyOf(left[cat][0]) == k {
      assert ListedUnder(left, cat, k);
    }
  }

  lemma ListedIs(left: Evidence, cat: string, k: Key)
    ensures ListedUnder(left, cat, k) <==> cat in left && exists c :: c in left[cat] && KeyOf(c) == k
  {
    if cat in left {
      if c :| c in left[cat] && KeyOf(c) == k {
        var i :| 0 <= i < |left[cat]| && left[cat][i] == c;
      }
      if ListedUnder(left, cat, k) {
        var i :| 0 <= i < |left[cat]| && KeyOf(left[cat][i]) == k;
        assert left[cat][i] in left[cat];
      }
    }
  }

  lemma LeastGoesBefore(rules: Rules, left: Evidence, key: Key, k: Key)
    requires !Less(PriorityOf(rules, left, k), PriorityOf(rules, left, key))
    ensures GoesBefore(rules, left, key, k)
  {
    SoleIs(rules, left, key);
    SoleIs(rules, left, k);
    ListedIs(left, "EXPERIENCE", key);
    ListedIs(left, "PROJECTS", key);
    ListedIs(left, "EXPERIENCE", k);
    ListedIs(left, "PROJECTS", k);
  }

  /** Every source on the path went before all that were left. */
  ghost predicate LeastFirst(evidence: Evidence, rules: Rules, path: seq<Key>) {
    forall i :: 0 <= i < |path| ==> NoneBefore(rules, Without(evidence, Elements(path[..i])), path[i])
  }

  ghost predicate NoneBefore(rules: Rules, left: Evidence, key: Key) {
    key in Keys(left) && forall k :: k in Keys(left) ==> GoesBefore(rules, left, key, k)
  }

  lemma GreedyIsLeastFirst(evidence: Evidence, order: seq<string>, fits: Evidence -> bool, rules: Rules, path: seq<Key>)
    requires Ordered(evidence, order) && Greedy(evidence, order, fits, rules, path)
    ensures LeastFirst(evidence, rules, path)
  {
    forall i | 0 <= i < |path| ensures NoneBefore(rules, Without(evidence, Elements(path[..i])), path[i]) {
      var left := Without(evidence, Elements(path[..i]));
      assert HadToGo(left, order, fits, rules, path[i]);
      ListedKeysAreKeys(left, order, path[i]);
      forall k | k in Keys(left) ensures GoesBefore(rules, left, path[i], k) {
        ListedKeysAreKeys(left, order, k);
        LeastGoesBefore(rules, left, path[i], k);
      }
    }
  }

  /** One whole source less. */
  method DropLeast(evidence: Evidence, order: seq<string>, start: Metadata, current: Evidence, metadata: Metadata,
                   ghost gone: set<Key>, rules: Rules)
    returns (after: Evidence, metadata': Metadata, key: Key)
    requires Ordered(current, order) && Keys(current) != {} && Bounding(evidence, order, start, current, metadata, gone)
    ensures IsFirstLeast(rules, current, ListedKeys(current, order), key)
    ensures Ordered(after, order) && Keys(after) < Keys(current)
    ensures Bounding(evidence, order, start, after, metadata', gone + {key})
  {
    key := PickLeast(current, order, rules);
    var removed;
    after, removed := RemoveSource(current, order, key);
    WithoutKeys(evidence, gone);
    WithoutKeys(current, {key});
    WithoutMore(evidence, gone, key);
    var chars := CountUniqueChars(after);
    metadata' := Metadata(false, chars, metadata.omitted + removed, metadata.removed + |removed|);
  }

  method PickLeast(current: Evidence, order: seq<string>, rules: Rules) returns (key: Key)
    requires Ordered(current, order) && Keys(current) != {}
    ensures key in Keys(current) && IsFirstLeast(rules, current, ListedKeys(current, order), key)
    ensures NoneBefore(rules, current, key)
  {
    var keys := ListedKeys(current, order);
    ghost var some :| some in Keys(current);
    ListedKeysAreKeys(current, order, some);
    key := FirstLeast(rules, current, keys);
    FirstLeastIs(rules, current, keys);
    ListedKeysAreKeys(current, order, key);
    forall k | k in Keys(current) ensures GoesBefore(rules, current, key, k) {
      ListedKeysAreKeys(current, order, k);
      LeastGoesBefore(rules, current, key, k);
    }
  }

  /**
   * Remove whole sources, always the one of least priority that is listed first, until the prompt fits.
   * It fails only when not even the empty evidence fits; otherwise the result is the first that fits, and
   * the metadata says how many chunks went and how many characters are left.
   */
  method BoundPrompt(evidence: Evidence, order: seq<string>, start: Metadata, fits: Evidence -> bool, rules: Rules)
    returns (result: Option<Bounded>, ghost path: seq<Key>)
    requires Ordered(evidence, order)
    ensures Greedy(evidence, order, fits, rules, path) && LeastFirst(evidence, rules, path)
    ensures result.None? ==> !fits(Emptied(evidence)) && Elements(path) == Keys(evidence)
    ensures result.Some? ==> fits(result.value.evidence)
    ensures result.Some? ==> Bounding(evidence, order, start, result.value.evidence, result.value.metadata, Elements(path))
    ensures fits(evidence) ==> result == Some(Bounded(evidence, start))
  {
    var current, metadata := evidence, start;
    path := [];
    WithoutNothing(evidence);
    assert Elements<Key>([]) == {};
    assert Greedy(evidence, order, fits, rules, path);
    while !fits(current)
      invariant Ordered(current, order) && Bounding(evidence, order, start, current, metadata, Elements(path))
      invariant Greedy(evidence, order, fits, rules, path)
      invariant path == [] ==> current == evidence && metadata == start
      invariant path != [] ==> !fits(evidence)
      decreases |Keys(current)|
    {
      if Keys(current) == {} {
        NothingLeft(evidence, current, Elements(path));
        GreedyIsLeastFirst(evidence, order, fits, rules, path);
        return None, path;
      }
      ghost var before := Keys(current);
      var after, counted, key := DropLeast(evidence, order, start, current, metadata, Elements(path), rules);
      GreedyNext(evidence, order, fits, rules, path, key);
      current, metadata, path := after, counted, path + [key];
      FewerKeys(Keys(current), before);
    }
    GreedyIsLeastFirst(evidence, order, fits, rules, path);
    result := Some(Bounded(current, metadata));
  }

  lemma FewerKeys(a: set<Key>, b: set<Key>)
    requires a < b
    ensures |a| < |b|
  {
    var k :| k in b && k !in a;
    assert a <= b - {k};
    SmallerSet(a, b - {k});
  }

  lemma {:induction false} SmallerSet(a: set<Key>, b: set<Key>)
    requires a <= b
    ensures |a| <= |b|
    decreases |a|
  {
    if a != {} {
      var k :| k in a;
      SmallerSet(a - {k}, b - {k});
    }
  }
}
