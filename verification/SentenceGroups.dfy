/**
 * Registry entries are grouped into physical sentences, and retrieval copies of a retained CV
 * sentence are dropped.
 */
module SentenceGroups {
  import opened Prelude
  import opened Context
  import opened Sentences

  datatype GroupKey = GroupKey(document: Document, chunk: string, start: nat, stop: nat, text: string)

  /** One physical sentence; `first` is the entry that opened the group. */
  datatype Group = Group(key: GroupKey, refs: map<Category, Ref>, first: Ref)

  /** Whether the first text, normalised, is a nonempty whole-word part of the second. */
  type Contains = (string, string) -> bool

  function KeyOfRef(r: Ref): GroupKey {
    GroupKey(r.source.document, r.source.chunk, r.start, r.stop, TextOf(r))
  }

  /** A chunk identity always names the same text in the same place; the registry is built that way. */
  ghost predicate SameSignature(registry: seq<Ref>) {
    forall a, b :: a in registry && b in registry
                   && a.source.document == b.source.document && a.source.chunk == b.source.chunk ==>
      a.source.origin == b.source.origin && a.source.location == b.source.location && a.source.text == b.source.text
  }

  ghost predicate OneOwner(registry: seq<Ref>) {
    forall a, b :: a in registry && b in registry ==> a.source.candidate == b.source.candidate
  }

  ghost predicate Consistent(registry: seq<Ref>) {
    OneOwner(registry) && SameSignature(registry)
  }

  lemma SameSentence(registry: seq<Ref>, a: Ref, b: Ref)
    requires Consistent(registry) && a in registry && b in registry
    requires KeyOfRef(a) == KeyOfRef(b) && a.source.category == b.source.category
    ensures a == b
  {
  }

  // ----- grouping

  ghost predicate GroupOk(registry: seq<Ref>, g: Group) {
    && g.first in registry && KeyOfRef(g.first) == g.key
    && g.first.source.category in g.refs && g.refs[g.first.source.category] == g.first
    && (forall c :: c in g.refs ==>
          g.refs[c] in registry && KeyOfRef(g.refs[c]) == g.key && g.refs[c].source.category == c)
  }

  ghost predicate InGroup(g: Group, r: Ref) {
    g.key == KeyOfRef(r) && r.source.category in g.refs && g.refs[r.source.category] == r
  }

  ghost predicate Grouped(groups: seq<Group>, r: Ref) {
    exists i :: 0 <= i < |groups| && InGroup(groups[i], r)
  }

  ghost predicate DistinctKeys(groups: seq<Group>) {
    forall i, j :: 0 <= i < j < |groups| ==> groups[i].key != groups[j].key
  }

  ghost predicate GroupsOk(registry: seq<Ref>, groups: seq<Group>) {
    DistinctKeys(groups) && forall i :: 0 <= i < |groups| ==> GroupOk(registry, groups[i])
  }

  function FindGroup(groups: seq<Group>, key: GroupKey): (at: int)
    ensures -1 <= at < |groups|
    ensures at >= 0 ==> groups[at].key == key
    ensures at < 0 ==> forall i :: 0 <= i < |groups| ==> groups[i].key != key
  {
    if groups == [] then -1
    else if groups[|groups| - 1].key == key then |groups| - 1
    else FindGroup(groups[..|groups| - 1], key)
  }

  function Join(g: Group, r: Ref): Group {
    g.(refs := g.refs[r.source.category := r])
  }

  /** A group that already has the category has this very entry under it. */
  lemma JoinGroup(registry: seq<Ref>, g: Group, r: Ref)
    requires Consistent(registry) && GroupOk(registry, g) && r in registry && g.key == KeyOfRef(r)
    ensures GroupOk(registry, Join(g, r)) && Join(g, r).key == g.key
    ensures Join(g, r).refs[r.source.category] == r
    ensures forall c :: c in g.refs ==> c in Join(g, r).refs && Join(g, r).refs[c] == g.refs[c]
  {
    if r.source.category in g.refs {
      SameSentence(registry, g.refs[r.source.category], r);
    }
  }

  lemma JoinKeepsGroups(registry: seq<Ref>, groups: seq<Group>, at: nat, g: Group)
    requires GroupsOk(registry, groups) && at < |groups|
    requires GroupOk(registry, g) && g.key == groups[at].key
    ensures GroupsOk(registry, groups[at := g])
  {
    var groups' := groups[at := g];
    forall i, j | 0 <= i < j < |groups'| ensures groups'[i].key != groups'[j].key {
      assert groups'[i].key == groups[i].key && groups'[j].key == groups[j].key;
    }
  }

  lemma JoinKeepsGrouped(groups: seq<Group>, at: nat, g: Group, x: Ref)
    requires at < |groups| && g.key == groups[at].key
    requires forall c :: c in groups[at].refs ==> c in g.refs && g.refs[c] == groups[at].refs[c]
    requires Grouped(groups, x)
    ensures Grouped(groups[at := g], x)
  {
    var i :| 0 <= i < |groups| && InGroup(groups[i], x);
    assert InGroup(groups[at := g][i], x);
  }

  lemma OpenGroup(registry: seq<Ref>, groups: seq<Group>, r: Ref)
    requires GroupsOk(registry, groups) && r in registry
    requires forall i :: 0 <= i < |groups| ==> groups[i].key != KeyOfRef(r)
    ensures var groups' := groups + [Group(KeyOfRef(r), map[r.source.category := r], r)];
      && GroupsOk(registry, groups') && Grouped(groups', r)
      && (forall x :: x in registry && Grouped(groups, x) ==> Grouped(groups', x))
  {
    var groups' := groups + [Group(KeyOfRef(r), map[r.source.category := r], r)];
    assert InGroup(groups'[|groups|], r);
    forall x | x in registry && Grouped(groups, x) ensures Grouped(groups', x) {
      var i :| 0 <= i < |groups| && InGroup(groups[i], x);
      assert InGroup(groups'[i], x);
    }
  }

  function AddTo(groups: seq<Group>, r: Ref): seq<Group> {
    var at := FindGroup(groups, KeyOfRef(r));
    if at >= 0 then groups[at := Join(groups[at], r)]
    else groups + [Group(KeyOfRef(r), map[r.source.category := r], r)]
  }

  function GroupsOf(registry: seq<Ref>): seq<Group> {
    if registry == [] then [] else AddTo(GroupsOf(registry[..|registry| - 1]), registry[|registry| - 1])
  }

  lemma AddKeeps(registry: seq<Ref>, groups: seq<Group>, r: Ref)
    requires Consistent(registry) && GroupsOk(registry, groups) && r in registry
    ensures GroupsOk(registry, AddTo(groups, r)) && Grouped(AddTo(groups, r), r)
    ensures forall x :: x in registry && Grouped(groups, x) ==> Grouped(AddTo(groups, r), x)
  {
    var at := FindGroup(groups, KeyOfRef(r));
    if at >= 0 {
      var g := Join(groups[at], r);
      JoinGroup(registry, groups[at], r);
      JoinKeepsGroups(registry, groups, at, g);
      forall x | x in registry && Grouped(groups, x) ensures Grouped(groups[at := g], x) {
        JoinKeepsGrouped(groups, at, g, x);
      }
      assert InGroup(groups[at := g][at], r);
    } else {
      OpenGroup(registry, groups, r);
    }
  }

  lemma GroupsOfNext(registry: seq<Ref>, k: nat)
    requires k < |registry|
    ensures GroupsOf(registry[..k + 1]) == AddTo(GroupsOf(registry[..k]), registry[k])
  {
    assert registry[..k + 1][..k] == registry[..k];
  }

  ghost predicate AllGrouped(groups: seq<Group>, refs: seq<Ref>) {
    forall r :: r in refs ==> Grouped(groups, r)
  }

  lemma AddKeepsAll(registry: seq<Ref>, groups: seq<Group>, k: nat)
    requires Consistent(registry) && GroupsOk(registry, groups)
    requires k < |registry| && AllGrouped(groups, registry[..k])
    ensures GroupsOk(registry, AddTo(groups, registry[k])) && AllGrouped(AddTo(groups, registry[k]), registry[..k + 1])
  {
    assert registry[k] in registry;
    AddKeeps(registry, groups, registry[k]);
    assert registry[..k + 1] == registry[..k] + [registry[k]];
    forall r | r in registry[..k] ensures r in registry {
    }
  }

  method GroupAll(registry: seq<Ref>) returns (groups: seq<Group>)
    requires Consistent(registry)
    ensures groups == GroupsOf(registry) && GroupsOk(registry, groups) && AllGrouped(groups, registry)
  {
    groups := [];
    var k := 0;
    while k < |registry|
      invariant 0 <= k <= |registry|
      invariant groups == GroupsOf(registry[..k]) && GroupsOk(registry, groups) && AllGrouped(groups, registry[..k])
    {
      AddKeepsAll(registry, groups, k);
      GroupsOfNext(registry, k);
      groups := AddTo(groups, registry[k]);
      k := k + 1;
    }
    assert registry[..k] == registry;
  }

  // ----- deduplication

  predicate FromCv(g: Group) {
    g.key.document.WholeCv?
  }

  /** Another group is a CV sentence of the same category and provenance that contains the entry. */
  predicate CoveredBy(contains: Contains, r: Ref, other: Group) {
    var c := r.source.category;
    && FromCv(other) && c in other.refs
    && r.source.origin == other.refs[c].source.origin
    && contains(TextOf(r), TextOf(other.refs[c]))
  }

  predicate Covered(contains: Contains, groups: seq<Group>, r: Ref) {
    exists i :: 0 <= i < |groups| && CoveredBy(contains, r, groups[i])
  }

  /** Only a retrieval copy goes, and only if a CV sentence covers each of its entries. */
  predicate Duplicate(contains: Contains, groups: seq<Group>, g: Group) {
    !FromCv(g) && forall c :: c in g.refs ==> Covered(contains, groups, g.refs[c])
  }

  function Keeps(contains: Contains, groups: seq<Group>): Group -> bool {
    (g: Group) => !Duplicate(contains, groups, g)
  }

  method Deduplicate(contains: Contains, groups: seq<Group>) returns (kept: seq<Group>, dropped: seq<Ref>)
    ensures kept == Filter(groups, Keeps(contains, groups))
    ensures forall r :: r in dropped <==>
              exists i :: 0 <= i < |groups| && Duplicate(contains, groups, groups[i]) && r in groups[i].refs.Values
  {
    kept, dropped := [], [];
    var k := 0;
    while k < |groups|
      invariant 0 <= k <= |groups| && kept == Filter(groups[..k], Keeps(contains, groups))
      invariant forall r :: r in dropped <==>
                  exists i :: 0 <= i < k && Duplicate(contains, groups, groups[i]) && r in groups[i].refs.Values
    {
      assert groups[..k + 1][..k] == groups[..k];
      if Duplicate(contains, groups, groups[k]) {
        var ids := ValuesOf(groups[k].refs);
        dropped := dropped + ids;
      } else {
        kept := kept + [groups[k]];
      }
      k := k + 1;
    }
    assert groups[..k] == groups;
  }

  method ValuesOf(refs: map<Category, Ref>) returns (values: seq<Ref>)
    ensures forall r :: r in values <==> r in refs.Values
  {
    values := [];
    var k := 0;
    var order := CATEGORIES;
    while k < |order|
      invariant 0 <= k <= |order|
      invariant forall r :: r in values <==> exists i :: 0 <= i < k && order[i] in refs && refs[order[i]] == r
    {
      if order[k] in refs {
        values := values + [refs[order[k]]];
      }
      k := k + 1;
    }
    forall r ensures r in values <==> r in refs.Values {
      if r in refs.Values {
        var c :| c in refs && refs[c] == r;
        EveryCategory(c);
        var i :| 0 <= i < |order| && order[i] == c;
      }
    }
  }

  lemma EveryCategory(c: Category)
    ensures c in CATEGORIES
  {
    assert CATEGORIES[0] == Skills && CATEGORIES[1] == Experience && CATEGORIES[2] == Projects && CATEGORIES[3] == Education;
  }
}
