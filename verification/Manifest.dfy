/**
 * The selection manifest: every sentence that is kept becomes a numbered row with one handle for
 * each category that lists it. Handles and evidence identities correspond one to one, and what has
 * no handle was dropped as a copy of something that has.
 */
module Manifest {
  import opened Prelude
  import opened Sorting
  import opened Context
  import opened Sentences
  import opened SentenceGroups

  /** A category prefix and a row number; prefixes differ by category. */
  datatype Handle = Handle(category: Category, row: nat)

  datatype Manifest = Manifest(rows: seq<Group>, handles: map<Handle, Ref>, deduplicated: seq<Ref>)

  datatype Result<T> = Success(value: T) | CrossCandidate

  /** CV sentences first, then by place in the document, then by place in the chunk. */
  predicate Precedes(a: Group, b: Group) {
    if FromCv(a) != FromCv(b) then FromCv(a)
    else if a.first.source.location != b.first.source.location then a.first.source.location < b.first.source.location
    else a.key.start <= b.key.start
  }

  // ----- numbering

  ghost predicate Numbered(rows: seq<Group>, handles: map<Handle, Ref>) {
    && (forall h :: h in handles <==> 1 <= h.row <= |rows| && h.category in rows[h.row - 1].refs)
    && (forall h :: h in handles ==> handles[h] == rows[h.row - 1].refs[h.category])
  }

  ghost function RowHandles(row: Group, index: nat): (handles: map<Handle, Ref>)
    ensures forall h :: h in handles <==> h.row == index && h.category in row.refs
    ensures forall h :: h in handles ==> handles[h] == row.refs[h.category]
  {
    var handles := map c | c in row.refs :: Handle(c, index) := row.refs[c];
    assert forall c :: c in row.refs ==> Handle(c, index) in handles;
    handles
  }

  /** The handles of the rows. */
  ghost function HandlesOf(rows: seq<Group>): map<Handle, Ref> {
    if rows == [] then map[]
    else HandlesOf(rows[..|rows| - 1]) + RowHandles(rows[|rows| - 1], |rows|)
  }

  lemma {:induction false} HandlesAreNumbered(rows: seq<Group>)
    ensures Numbered(rows, HandlesOf(rows))
  {
    if rows != [] {
      var n := |rows| - 1;
      HandlesAreNumbered(rows[..n]);
      NumberedMore(rows, HandlesOf(rows[..n]), RowHandles(rows[n], n + 1));
    }
  }

  lemma NumberedMore(rows: seq<Group>, handles: map<Handle, Ref>, last: map<Handle, Ref>)
    requires rows != [] && Numbered(rows[..|rows| - 1], handles) && last == RowHandles(rows[|rows| - 1], |rows|)
    ensures Numbered(rows, handles + last)
  {
    var more := handles + last;
    forall h: Handle
      ensures h in more <==> 1 <= h.row <= |rows| && h.category in rows[h.row - 1].refs
      ensures h in more ==> more[h] == rows[h.row - 1].refs[h.category]
    {
      if h.row == |rows| {
        assert h !in handles;
      } else {
        assert h !in last;
      }
    }
  }

  lemma NumberedOnce(rows: seq<Group>, handles: map<Handle, Ref>)
    requires Numbered(rows, handles)
    ensures handles == HandlesOf(rows)
  {
    HandlesAreNumbered(rows);
    var other := HandlesOf(rows);
    assert handles.Keys == other.Keys;
    forall h | h in handles ensures handles[h] == other[h] {
    }
  }

  method NumberRow(row: Group, index: nat, handles: map<Handle, Ref>) returns (more: map<Handle, Ref>)
    requires forall h :: h in handles ==> h.row < index
    ensures forall h :: h in more <==> h in handles || (h.row == index && h.category in row.refs)
    ensures forall h :: h in handles ==> more[h] == handles[h]
    ensures forall h :: h in more && h.row == index ==> more[h] == row.refs[h.category]
  {
    more := handles;
    var order := CATEGORIES;
    var k := 0;
    while k < |order|
      invariant 0 <= k <= |order|
      invariant forall h :: h in more <==> h in handles || (h.row == index && h.category in row.refs && h.category in order[..k])
      invariant forall h :: h in handles ==> more[h] == handles[h]
      invariant forall h :: h in more && h.row == index ==> h.category in row.refs && more[h] == row.refs[h.category]
    {
      var category := order[k];
      assert order[..k + 1] == order[..k] + [category];
      if category in row.refs {
        more := more[Handle(category, index) := row.refs[category]];
      }
      k := k + 1;
    }
    assert order[..k] == order;
    forall c: Category ensures c in order {
      EveryCategory(c);
    }
  }

  method NumberRows(rows: seq<Group>) returns (handles: map<Handle, Ref>)
    ensures Numbered(rows, handles)
  {
    handles := map[];
    var k := 0;
    while k < |rows|
      invariant 0 <= k <= |rows| && Numbered(rows[..k], handles)
    {
      handles := NumberRow(rows[k], k + 1, handles);
      k := k + 1;
    }
    assert rows[..k] == rows;
  }

  // ----- what a manifest promises

  /** The rows are the sentences kept, each once, in reading order. */
  ghost predicate RowsOf(contains: Contains, groups: seq<Group>, rows: seq<Group>) {
    && (forall g :: g in rows <==> g in groups && !Duplicate(contains, groups, g))
    && Distinct(rows) && SortedBy(rows, Precedes)
  }

  lemma KeptInOrder(contains: Contains, groups: seq<Group>, rows: seq<Group>)
    requires DistinctKeys(groups) && rows == Sort(Filter(groups, Keeps(contains, groups)), Precedes)
    ensures RowsOf(contains, groups, rows)
  {
    var kept := Filter(groups, Keeps(contains, groups));
    FilterMembers(groups, Keeps(contains, groups));
    SortMembers(kept, Precedes);
    assert Distinct(groups);
    FilterDistinct(groups, Keeps(contains, groups));
    SortDistinct(kept, Precedes);
    SortSorts(kept, Precedes);
  }

  /** One handle per entry, and no entry with two. */
  ghost predicate OneToOne(registry: seq<Ref>, m: Manifest) {
    && (forall h :: h in m.handles ==> m.handles[h] in registry && m.handles[h].source.category == h.category)
    && (forall g, h :: g in m.handles && h in m.handles && m.handles[g] == m.handles[h] ==> g == h)
  }

  ghost predicate Reached(m: Manifest, r: Ref) {
    exists h :: h in m.handles && m.handles[h] == r
  }

  /** Every entry has a handle or was dropped, never both; nothing else was dropped. */
  ghost predicate Partitioned(registry: seq<Ref>, m: Manifest) {
    && (forall r :: r in registry ==> (Reached(m, r) <==> r !in m.deduplicated))
    && (forall r :: r in m.deduplicated ==> r in registry)
  }

  ghost predicate Stands(contains: Contains, m: Manifest, h: Handle, r: Ref) {
    && h in m.handles && h.category == r.source.category && m.handles[h].source.document.WholeCv?
    && m.handles[h].source.origin == r.source.origin && contains(TextOf(r), TextOf(m.handles[h]))
  }

  /** A dropped entry is part of a CV sentence of its own category and provenance that has a handle. */
  ghost predicate Replaced(contains: Contains, m: Manifest) {
    forall r :: r in m.deduplicated ==> exists h :: Stands(contains, m, h, r)
  }

  /** CV sentences before retrieved ones, and of one kind those that come first in their document and chunk. */
  ghost predicate InReadingOrder(rows: seq<Group>) {
    forall i, j :: 0 <= i < j < |rows| ==>
      && (rows[j].key.document.WholeCv? ==> rows[i].key.document.WholeCv?)
      && (rows[i].key.document.WholeCv? == rows[j].key.document.WholeCv? ==>
            && rows[i].first.source.location <= rows[j].first.source.location
            && (rows[i].first.source.location == rows[j].first.source.location ==> rows[i].key.start <= rows[j].key.start))
  }

  /** Two entries are one physical sentence, listed under two categories. */
  ghost predicate OneSentence(a: Ref, b: Ref) {
    && a.source.document == b.source.document && a.source.chunk == b.source.chunk
    && a.start == b.start && a.stop == b.stop && TextOf(a) == TextOf(b)
  }

  /** Handles share their number exactly when they stand for one physical sentence. */
  ghost predicate RowPerSentence(m: Manifest) {
    forall g, h :: g in m.handles && h in m.handles ==> (g.row == h.row <==> OneSentence(m.handles[g], m.handles[h]))
  }

  /** The entry stands in a CV sentence of its own category and provenance. */
  ghost predicate InCvToo(contains: Contains, registry: seq<Ref>, r: Ref) {
    exists y ::
      && y in registry && y.source.document.WholeCv?
      && y.source.category == r.source.category && y.source.origin == r.source.origin
      && contains(TextOf(r), TextOf(y))
  }

  /** What is dropped: retrieval copies whose sentence stands in the CV under every category that lists it. */
  ghost predicate DroppedExactly(contains: Contains, registry: seq<Ref>, m: Manifest) {
    forall r :: r in registry ==>
      (r in m.deduplicated <==>
         && !r.source.document.WholeCv?
         && forall x :: x in registry && OneSentence(x, r) ==> InCvToo(contains, registry, x))
  }

  ghost predicate Faithful(contains: Contains, registry: seq<Ref>, m: Manifest) {
    && Numbered(m.rows, m.handles) && InReadingOrder(m.rows) && RowPerSentence(m)
    && OneToOne(registry, m) && Partitioned(registry, m) && Replaced(contains, m)
    && DroppedExactly(contains, registry, m)
  }

  // ----- proofs

  ghost predicate Dropped(contains: Contains, groups: seq<Group>, dropped: seq<Ref>) {
    forall r :: r in dropped <==>
      exists i :: 0 <= i < |groups| && Duplicate(contains, groups, groups[i]) && r in groups[i].refs.Values
  }

  /** A numbered row is one of the groups, so its entries are the registry's. */
  lemma RowAt(contains: Contains, registry: seq<Ref>, groups: seq<Group>, m: Manifest, h: Handle)
    requires GroupsOk(registry, groups) && RowsOf(contains, groups, m.rows) && Numbered(m.rows, m.handles)
    requires h in m.handles
    ensures m.rows[h.row - 1] in groups && !Duplicate(contains, groups, m.rows[h.row - 1])
    ensures m.handles[h] in registry && m.handles[h].source.category == h.category
    ensures KeyOfRef(m.handles[h]) == m.rows[h.row - 1].key
    ensures InGroup(m.rows[h.row - 1], m.handles[h])
  {
    HandleRef(m, h);
    var g := m.rows[h.row - 1];
    var i := RowIsGroup(contains, groups, m.rows, h.row - 1);
    assert GroupOk(registry, groups[i]);
    EntryOf(registry, g, h.category);
  }

  lemma HandleRef(m: Manifest, h: Handle)
    requires Numbered(m.rows, m.handles) && h in m.handles
    ensures 1 <= h.row <= |m.rows| && h.category in m.rows[h.row - 1].refs
    ensures m.handles[h] == m.rows[h.row - 1].refs[h.category]
  {
  }

  lemma EntryOf(registry: seq<Ref>, g: Group, c: Category)
    requires GroupOk(registry, g) && c in g.refs
    ensures g.refs[c] in registry && g.refs[c].source.category == c
    ensures KeyOfRef(g.refs[c]) == g.key && InGroup(g, g.refs[c])
  {
  }

  lemma RowIsGroup(contains: Contains, groups: seq<Group>, rows: seq<Group>, k: nat) returns (i: nat)
    requires RowsOf(contains, groups, rows) && k < |rows|
    ensures i < |groups| && groups[i] == rows[k] && !Duplicate(contains, groups, rows[k])
  {
    assert rows[k] in rows;
    i :| 0 <= i < |groups| && groups[i] == rows[k];
  }

  lemma SameKeySameGroup(groups: seq<Group>, a: Group, b: Group)
    requires DistinctKeys(groups) && a in groups && b in groups && a.key == b.key
    ensures a == b
  {
    var i :| 0 <= i < |groups| && groups[i] == a;
    var j :| 0 <= j < |groups| && groups[j] == b;
    assert i == j;
  }

  lemma DifferentGroups(groups: seq<Group>, a: Group, b: Group)
    requires DistinctKeys(groups) && a in groups && b in groups && a != b
    ensures a.key != b.key
  {
    if a.key == b.key {
      SameKeySameGroup(groups, a, b);
    }
  }

  lemma HandlesAreOneToOne(contains: Contains, registry: seq<Ref>, groups: seq<Group>, m: Manifest)
    requires GroupsOk(registry, groups) && RowsOf(contains, groups, m.rows) && Numbered(m.rows, m.handles)
    ensures OneToOne(registry, m)
  {
    forall h | h in m.handles ensures m.handles[h] in registry && m.handles[h].source.category == h.category {
      RowAt(contains, registry, groups, m, h);
    }
    forall g, h | g in m.handles && h in m.handles && m.handles[g] == m.handles[h] ensures g == h {
      RowAt(contains, registry, groups, m, g);
      RowAt(contains, registry, groups, m, h);
      SameKeySameGroup(groups, m.rows[g.row - 1], m.rows[h.row - 1]);
      assert g.row == h.row;
    }
  }

  /** An entry of a group that is kept is reached by the handle of its row and category. */
  lemma KeptIsReached(contains: Contains, groups: seq<Group>, m: Manifest, g: Group, r: Ref)
    requires DistinctKeys(groups) && RowsOf(contains, groups, m.rows) && Numbered(m.rows, m.handles)
    requires g in groups && !Duplicate(contains, groups, g) && InGroup(g, r)
    ensures exists h :: h in m.handles && m.handles[h] == r && h.category == r.source.category
  {
    var i :| 0 <= i < |m.rows| && m.rows[i] == g;
    var h := Handle(r.source.category, i + 1);
    assert h in m.handles && m.handles[h] == r;
  }

  lemma HandlesPartition(contains: Contains, registry: seq<Ref>, groups: seq<Group>, m: Manifest)
    requires GroupsOk(registry, groups) && AllGrouped(groups, registry)
    requires RowsOf(contains, groups, m.rows) && Numbered(m.rows, m.handles)
    requires Dropped(contains, groups, m.deduplicated)
    ensures Partitioned(registry, m)
  {
    forall r | r in m.deduplicated ensures r in registry && !Reached(m, r) {
      DroppedIsGrouped(contains, registry, groups, m.deduplicated, r);
      var g :| g in groups && Duplicate(contains, groups, g) && InGroup(g, r);
      forall h | h in m.handles ensures m.handles[h] != r {
        RowAt(contains, registry, groups, m, h);
        DifferentGroups(groups, g, m.rows[h.row - 1]);
      }
    }
    forall r | r in registry && r !in m.deduplicated ensures Reached(m, r) {
      var i :| 0 <= i < |groups| && InGroup(groups[i], r);
      var g := groups[i];
      assert r in g.refs.Values;
      KeptIsReached(contains, groups, m, g, r);
    }
  }

  lemma DroppedIsGrouped(contains: Contains, registry: seq<Ref>, groups: seq<Group>, dropped: seq<Ref>, r: Ref)
    requires GroupsOk(registry, groups) && Dropped(contains, groups, dropped) && r in dropped
    ensures r in registry
    ensures exists g :: g in groups && Duplicate(contains, groups, g) && InGroup(g, r)
  {
    var i :| 0 <= i < |groups| && Duplicate(contains, groups, groups[i]) && r in groups[i].refs.Values;
    var g := groups[i];
    assert GroupOk(registry, g);
    var c :| c in g.refs && g.refs[c] == r;
    assert InGroup(g, r) && g in groups;
  }

  lemma DroppedIsReplaced(contains: Contains, registry: seq<Ref>, groups: seq<Group>, m: Manifest)
    requires GroupsOk(registry, groups) && RowsOf(contains, groups, m.rows) && Numbered(m.rows, m.handles)
    requires Dropped(contains, groups, m.deduplicated)
    ensures Replaced(contains, m)
  {
    forall r | r in m.deduplicated ensures exists h :: Stands(contains, m, h, r) {
      DroppedIsGrouped(contains, registry, groups, m.deduplicated, r);
      var g :| g in groups && Duplicate(contains, groups, g) && InGroup(g, r);
      assert Covered(contains, groups, g.refs[r.source.category]);
      var i :| 0 <= i < |groups| && CoveredBy(contains, r, groups[i]);
      var cv := groups[i];
      assert GroupOk(registry, cv);
      var other := cv.refs[r.source.category];
      assert cv in groups && InGroup(cv, other);
      KeptIsReached(contains, groups, m, cv, other);
      var h :| h in m.handles && m.handles[h] == other && h.category == other.source.category;
      assert Stands(contains, m, h, r);
    }
  }

  lemma RowsReadInOrder(rows: seq<Group>)
    requires SortedBy(rows, Precedes)
    ensures InReadingOrder(rows)
  {
    forall i, j | 0 <= i < j < |rows| ensures Precedes(rows[i], rows[j]) {
    }
  }

  lemma RowsAreSentences(contains: Contains, registry: seq<Ref>, groups: seq<Group>, m: Manifest)
    requires GroupsOk(registry, groups) && RowsOf(contains, groups, m.rows) && Numbered(m.rows, m.handles)
    ensures RowPerSentence(m)
  {
    forall g, h | g in m.handles && h in m.handles
      ensures g.row == h.row <==> OneSentence(m.handles[g], m.handles[h])
    {
      RowAt(contains, registry, groups, m, g);
      RowAt(contains, registry, groups, m, h);
      SameKey(m.handles[g], m.handles[h]);
      if OneSentence(m.handles[g], m.handles[h]) {
        SameKeySameGroup(groups, m.rows[g.row - 1], m.rows[h.row - 1]);
      }
    }
  }

  lemma SameKey(a: Ref, b: Ref)
    ensures OneSentence(a, b) <==> KeyOfRef(a) == KeyOfRef(b)
  {
  }

  lemma CoveredMeans(contains: Contains, registry: seq<Ref>, groups: seq<Group>, r: Ref)
    requires GroupsOk(registry, groups) && AllGrouped(groups, registry)
    ensures Covered(contains, groups, r) <==> InCvToo(contains, registry, r)
  {
    if Covered(contains, groups, r) {
      var i :| 0 <= i < |groups| && CoveredBy(contains, r, groups[i]);
      assert GroupOk(registry, groups[i]);
      var y := groups[i].refs[r.source.category];
      assert y in registry && KeyOfRef(y) == groups[i].key;
    }
    if InCvToo(contains, registry, r) {
      var y :| y in registry && y.source.document.WholeCv? && y.source.category == r.source.category
               && y.source.origin == r.source.origin && contains(TextOf(r), TextOf(y));
      var i :| 0 <= i < |groups| && InGroup(groups[i], y);
      assert CoveredBy(contains, r, groups[i]);
    }
  }

  /** A group lists exactly the entries of the registry that are its sentence. */
  lemma GroupLists(registry: seq<Ref>, groups: seq<Group>, g: Group, x: Ref)
    requires GroupsOk(registry, groups) && AllGrouped(groups, registry) && g in groups
    ensures x in g.refs.Values <==> x in registry && KeyOfRef(x) == g.key
  {
    var i :| 0 <= i < |groups| && groups[i] == g;
    assert GroupOk(registry, groups[i]);
    if x in registry && KeyOfRef(x) == g.key {
      var j :| 0 <= j < |groups| && InGroup(groups[j], x);
      SameKeySameGroup(groups, g, groups[j]);
    }
  }

  lemma DuplicateMeans(contains: Contains, registry: seq<Ref>, groups: seq<Group>, g: Group, r: Ref)
    requires GroupsOk(registry, groups) && AllGrouped(groups, registry) && g in groups && r in registry && InGroup(g, r)
    ensures Duplicate(contains, groups, g) <==>
              && !r.source.document.WholeCv?
              && forall x :: x in registry && OneSentence(x, r) ==> InCvToo(contains, registry, x)
  {
    forall x: Ref
      ensures Covered(contains, groups, x) <==> InCvToo(contains, registry, x)
      ensures x in g.refs.Values <==> x in registry && OneSentence(x, r)
    {
      CoveredMeans(contains, registry, groups, x);
      GroupLists(registry, groups, g, x);
      SameKey(x, r);
    }
    forall c | c in g.refs ensures g.refs[c] in g.refs.Values {
    }
  }

  lemma DropsAreExact(contains: Contains, registry: seq<Ref>, groups: seq<Group>, m: Manifest)
    requires GroupsOk(registry, groups) && AllGrouped(groups, registry) && Dropped(contains, groups, m.deduplicated)
    ensures DroppedExactly(contains, registry, m)
  {
    forall r | r in registry
      ensures r in m.deduplicated <==>
                && !r.source.document.WholeCv?
                && forall x :: x in registry && OneSentence(x, r) ==> InCvToo(contains, registry, x)
    {
      var i :| 0 <= i < |groups| && InGroup(groups[i], r);
      assert groups[i] in groups && r in groups[i].refs.Values;
      DuplicateMeans(contains, registry, groups, groups[i], r);
      if r in m.deduplicated {
        DroppedIsGrouped(contains, registry, groups, m.deduplicated, r);
        var g :| g in groups && Duplicate(contains, groups, g) && InGroup(g, r);
        SameKeySameGroup(groups, g, groups[i]);
      }
    }
  }

  // ----- the method

  /** All entries must be the candidate's when one is named, and one candidate's in any case. */
  predicate Owned(registry: seq<Ref>, candidate: Option<int>) {
    && (forall i :: 0 <= i < |registry| ==> candidate.Some? ==> registry[i].source.candidate == candidate.value)
    && (forall i :: 0 <= i < |registry| ==> registry[i].source.candidate == registry[0].source.candidate)
  }

  function RowsFrom(contains: Contains, registry: seq<Ref>): seq<Group> {
    var groups := GroupsOf(registry);
    Sort(Filter(groups, Keeps(contains, groups)), Precedes)
  }

  method EvidenceManifest(contains: Contains, registry: seq<Ref>, candidate: Option<int>) returns (r: Result<Manifest>)
    requires SameSignature(registry)
    ensures r.Success? <==> Owned(registry, candidate)
    ensures r.Success? ==> Faithful(contains, registry, r.value)
    ensures r.Success? ==> r.value.rows == RowsFrom(contains, registry)
  {
    if !Owned(registry, candidate) {
      return CrossCandidate;
    }
    assert OneOwner(registry);
    var groups := GroupAll(registry);
    var kept, deduplicated := Deduplicate(contains, groups);
    var rows := Sort(kept, Precedes);
    var handles := NumberRows(rows);
    var m := Manifest(rows, handles, deduplicated);
    KeptInOrder(contains, groups, rows);
    RowsReadInOrder(rows);
    RowsAreSentences(contains, registry, groups, m);
    DropsAreExact(contains, registry, groups, m);
    HandlesAreOneToOne(contains, registry, groups, m);
    HandlesPartition(contains, registry, groups, m);
    DroppedIsReplaced(contains, registry, groups, m);
    r := Success(m);
  }
}
