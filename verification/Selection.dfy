/**
 * A selection cites handles of a manifest. Resolving it replaces every handle by the trusted entry it
 * stands for: its positional tag, its identity, and its own text as claim and quotation. Nothing the
 * selection says about the text is used.
 */
module Selection {
  import opened Prelude
  import opened Sentences
  import opened SentenceGroups
  import opened Manifest

  /** An evidence identity, or the mark left by a handle that is not in the manifest. */
  datatype Id = Known(ref: Ref) | UnknownHandle(handle: Handle)

  /** A positional tag such as SKILLS:3, or the mark left by an identity not in the registry. */
  datatype Tag = Tag(category: Category, n: nat) | UnknownId(id: Id)

  datatype FlagKind = Inconsistency | CareerGap | MissingInformation

  datatype Field = CategoryField(category: Category) | FlagField(index: nat, kind: FlagKind)

  /** What a selection says about one assessment or flag. */
  datatype Choice = Choice(field: Field, citations: seq<Handle>)

  datatype Draft = Draft(field: Field, citations: seq<Id>, claims: seq<DraftClaim>)

  datatype DraftClaim = DraftClaim(claim: string, citation: Id)

  datatype Claim = Claim(claim: string, citation: Tag, quote: string, id: Option<Id>)

  datatype Part = Part(field: Field, citations: seq<Tag>, claims: seq<Claim>)

  /** A hash of its arguments; two scopes are equal exactly when they name the same things. */
  datatype Scope = Scope(owners: set<int>, handles: map<Handle, Ref>, entries: multiset<Ref>)

  datatype Selection = Selection(scope: Scope, choices: seq<Choice>)

  datatype Resolution = Resolved(parts: seq<Part>) | ScopeMismatch | WrongOwner

  // ----- positional tags

  predicate InCategory(r: Ref, category: Category) {
    r.source.category == category
  }

  function CategoryCount(registry: seq<Ref>, category: Category): nat {
    Count(registry, (r: Ref) => InCategory(r, category))
  }

  /** Entries are numbered within their category, from one. */
  function TagAt(registry: seq<Ref>, i: nat): Tag
    requires i < |registry|
  {
    Tag(registry[i].source.category, CategoryCount(registry[..i + 1], registry[i].source.category))
  }

  ghost predicate Tagged(registry: seq<Ref>, tags: map<Tag, Ref>) {
    && (forall i :: 0 <= i < |registry| ==> TagAt(registry, i) in tags && tags[TagAt(registry, i)] == registry[i])
    && (forall t :: t in tags ==> Listed(registry, t))
  }

  ghost predicate Listed(registry: seq<Ref>, t: Tag) {
    exists i :: 0 <= i < |registry| && TagAt(registry, i) == t
  }

  lemma {:induction false} CountGrows(registry: seq<Ref>, i: nat, j: nat, category: Category)
    requires i <= j <= |registry|
    ensures CategoryCount(registry[..i], category) <= CategoryCount(registry[..j], category)
  {
    if i < j {
      assert registry[..j][..j - 1] == registry[..j - 1];
      CountGrows(registry, i, j - 1, category);
    }
  }

  /** No two entries share a tag, and numbers start at one. */
  lemma TagsAreDistinct(registry: seq<Ref>, i: nat, j: nat)
    requires i < j < |registry|
    ensures TagAt(registry, i) != TagAt(registry, j) && TagAt(registry, j).n >= 1
  {
    var category := registry[j].source.category;
    assert registry[..j + 1][..j] == registry[..j];
    CountGrows(registry, i + 1, j, category);
  }

  /** An entry's number says how many entries of its category are listed up to it, itself included. */
  lemma TagsCount(registry: seq<Ref>, i: nat)
    requires i < |registry|
    ensures TagAt(registry, i).Tag? && TagAt(registry, i).category == registry[i].source.category
    ensures TagAt(registry, i).n == |set k: nat | k <= i && registry[k].source.category == registry[i].source.category|
  {
    var category := registry[i].source.category;
    var p := (r: Ref) => InCategory(r, category);
    CountPlaces(registry[..i + 1], p);
    assert Places(registry[..i + 1], p) == set k: nat | k <= i && registry[k].source.category == category;
  }

  lemma TagOfPrefix(registry: seq<Ref>, k: nat, i: nat)
    requires i < k <= |registry|
    ensures TagAt(registry[..k], i) == TagAt(registry, i)
  {
    assert registry[..k][..i + 1] == registry[..i + 1];
  }

  lemma ListedNext(registry: seq<Ref>, k: nat, t: Tag)
    requires k < |registry|
    ensures Listed(registry[..k + 1], t) <==> Listed(registry[..k], t) || t == TagAt(registry, k)
  {
    var next := registry[..k + 1];
    forall i | 0 <= i < k ensures TagAt(next, i) == TagAt(registry[..k], i) {
      TagOfPrefix(registry, k, i);
      TagOfPrefix(registry, k + 1, i);
    }
    TagOfPrefix(registry, k + 1, k);
    if Listed(registry[..k], t) {
      var i :| 0 <= i < k && TagAt(registry[..k], i) == t;
      assert TagAt(next, i) == t;
    }
    if t == TagAt(registry, k) {
      assert TagAt(next, k) == t;
    }
  }

  lemma NextIsNew(registry: seq<Ref>, k: nat)
    requires k < |registry|
    ensures !Listed(registry[..k], TagAt(registry, k))
  {
    forall i | 0 <= i < k ensures TagAt(registry[..k], i) != TagAt(registry, k) {
      TagOfPrefix(registry, k, i);
      TagsAreDistinct(registry, i, k);
    }
  }

  lemma TaggedNext(registry: seq<Ref>, k: nat, tags: map<Tag, Ref>)
    requires k < |registry| && Tagged(registry[..k], tags)
    ensures Tagged(registry[..k + 1], tags[TagAt(registry, k) := registry[k]])
  {
    var tag := TagAt(registry, k);
    var next := registry[..k + 1];
    NextIsNew(registry, k);
    forall i | 0 <= i < k ensures TagAt(next, i) in tags && tags[TagAt(next, i)] == next[i] && TagAt(next, i) != tag {
      TagOfPrefix(registry, k, i);
      TagOfPrefix(registry, k + 1, i);
      assert TagAt(registry[..k], i) in tags && registry[..k][i] == next[i];
    }
    TagOfPrefix(registry, k + 1, k);
    forall t | t in tags || t == tag ensures Listed(next, t) {
      ListedNext(registry, k, t);
    }
  }

  ghost predicate Counted(registry: seq<Ref>, counts: map<Category, nat>) {
    forall c: Category :: c in counts && counts[c] == CategoryCount(registry, c)
  }

  lemma NothingCounted(counts: map<Category, nat>)
    requires counts == map[Skills := 0, Experience := 0, Projects := 0, Education := 0]
    ensures Counted([], counts)
  {
    forall c: Category ensures c in counts && counts[c] == CategoryCount([], c) {
      match c {
        case Skills =>
        case Experience =>
        case Projects =>
        case Education =>
      }
    }
  }

  lemma CountedNext(registry: seq<Ref>, k: nat, counts: map<Category, nat>)
    requires k < |registry| && Counted(registry[..k], counts)
    ensures var c := registry[k].source.category;
      TagAt(registry, k) == Tag(c, counts[c] + 1) && Counted(registry[..k + 1], counts[c := counts[c] + 1])
  {
    assert registry[..k + 1][..k] == registry[..k];
  }

  /** `counts` numbers the entries of each category as they are listed. */
  method TagEntries(registry: seq<Ref>) returns (tags: map<Tag, Ref>)
    ensures Tagged(registry, tags)
  {
    var counts: map<Category, nat> := map[Skills := 0, Experience := 0, Projects := 0, Education := 0];
    tags := map[];
    NothingCounted(counts);
    var k := 0;
    assert registry[..0] == [];
    while k < |registry|
      invariant 0 <= k <= |registry| && Tagged(registry[..k], tags) && Counted(registry[..k], counts)
    {
      var category := registry[k].source.category;
      CountedNext(registry, k, counts);
      TaggedNext(registry, k, tags);
      counts := counts[category := counts[category] + 1];
      tags := tags[Tag(category, counts[category]) := registry[k]];
      k := k + 1;
    }
    assert registry[..k] == registry;
  }

  // ----- scope

  function OwnersOf(registry: seq<Ref>): set<int> {
    set r | r in registry :: r.source.candidate
  }

  /** What binds a selection to the request it answers. */
  ghost function ScopeOf(contains: Contains, registry: seq<Ref>, candidate: int): Scope {
    Scope(OwnersOf(registry) + {candidate}, HandlesOf(RowsFrom(contains, registry)), multiset(registry))
  }

  // ----- resolution

  function IdOf(handles: map<Handle, Ref>, h: Handle): Id {
    if h in handles then Known(handles[h]) else UnknownHandle(h)
  }

  /** The identities known to a registry: each leads to a tag of an entry with that identity. */
  ghost predicate Indexed(registry: seq<Ref>, tags: map<Tag, Ref>, byId: map<Ref, Tag>) {
    && (forall r :: r in byId <==> r in registry)
    && (forall r :: r in byId ==> byId[r] in tags && tags[byId[r]] == r)
  }

  lemma IndexedNext(registry: seq<Ref>, tags: map<Tag, Ref>, byId: map<Ref, Tag>, k: nat, tag: Tag)
    requires k < |registry| && tag in tags && tags[tag] == registry[k]
    requires Indexed(registry[..k], tags, byId)
    ensures Indexed(registry[..k + 1], tags, byId[registry[k] := tag])
  {
    assert registry[..k + 1] == registry[..k] + [registry[k]];
  }

  method IndexById(registry: seq<Ref>, tags: map<Tag, Ref>) returns (byId: map<Ref, Tag>)
    requires Tagged(registry, tags)
    ensures Indexed(registry, tags, byId)
  {
    byId := map[];
    var k := 0;
    while k < |registry|
      invariant 0 <= k <= |registry| && Indexed(registry[..k], tags, byId)
    {
      var tag := TagAt(registry, k);
      IndexedNext(registry, tags, byId, k, tag);
      byId := byId[registry[k] := tag];
      k := k + 1;
    }
    assert registry[..k] == registry;
  }

  function TextById(byId: map<Ref, Tag>, id: Id): string {
    if id.Known? && id.ref in byId then TextOf(id.ref) else ""
  }

  function TagById(byId: map<Ref, Tag>, id: Id): Tag {
    if id.Known? && id.ref in byId then byId[id.ref] else UnknownId(id)
  }

  /** Handles become identities. */
  method ToIdentities(choices: seq<Choice>, handles: map<Handle, Ref>) returns (drafts: seq<Draft>)
    ensures |drafts| == |choices|
    ensures forall i :: 0 <= i < |drafts| ==>
              drafts[i] == Draft(choices[i].field, Map(choices[i].citations, (h: Handle) => IdOf(handles, h)), [])
  {
    drafts := [];
    var k := 0;
    while k < |choices|
      invariant 0 <= k <= |choices| && |drafts| == k
      invariant forall i :: 0 <= i < k ==>
                  drafts[i] == Draft(choices[i].field, Map(choices[i].citations, (h: Handle) => IdOf(handles, h)), [])
    {
      drafts := drafts + [Draft(choices[k].field, Map(choices[k].citations, (h: Handle) => IdOf(handles, h)), [])];
      k := k + 1;
    }
  }

  function SentenceClaims(byId: map<Ref, Tag>, citations: seq<Id>): seq<DraftClaim> {
    Map(citations, (id: Id) => DraftClaim(TextById(byId, id), id))
  }

  /** Each citation is claimed in the words of its own sentence. */
  method AttachSentences(drafts: seq<Draft>, byId: map<Ref, Tag>) returns (claimed: seq<Draft>)
    ensures |claimed| == |drafts|
    ensures forall i :: 0 <= i < |drafts| ==>
              claimed[i] == drafts[i].(claims := SentenceClaims(byId, drafts[i].citations))
  {
    claimed := drafts;
    var k := 0;
    while k < |drafts|
      invariant 0 <= k <= |drafts| && |claimed| == |drafts|
      invariant forall i :: 0 <= i < k ==>
                  claimed[i] == drafts[i].(claims := SentenceClaims(byId, drafts[i].citations))
      invariant forall i :: k <= i < |drafts| ==> claimed[i] == drafts[i]
    {
      claimed := claimed[k := claimed[k].(claims := SentenceClaims(byId, claimed[k].citations))];
      k := k + 1;
    }
  }

  function Trusted(byId: map<Ref, Tag>, c: DraftClaim): Claim {
    Claim(c.claim, TagById(byId, c.citation), TextById(byId, c.citation), Some(c.citation))
  }

  method AttachTrusted(draft: Draft, byId: map<Ref, Tag>) returns (part: Part)
    ensures part.field == draft.field
    ensures part.citations == Map(draft.citations, (id: Id) => TagById(byId, id))
    ensures part.claims == Map(draft.claims, (c: DraftClaim) => Trusted(byId, c))
  {
    var claims := [];
    var k := 0;
    while k < |draft.claims|
      invariant 0 <= k <= |draft.claims| && |claims| == k
      invariant forall i :: 0 <= i < k ==> claims[i] == Trusted(byId, draft.claims[i])
    {
      claims := claims + [Trusted(byId, draft.claims[k])];
      k := k + 1;
    }
    part := Part(draft.field, Map(draft.citations, (id: Id) => TagById(byId, id)), claims);
  }

  // ----- what a resolved part says

  /** The citation is the tag of the entry the handle stands for, with that entry's own words. */
  ghost predicate CitesEntry(tags: map<Tag, Ref>, r: Ref, tag: Tag, claim: Claim) {
    tag in tags && tags[tag] == r && claim == Claim(TextOf(r), tag, TextOf(r), Some(Known(r)))
  }

  ghost predicate CitesNothing(h: Handle, tag: Tag, claim: Claim) {
    tag == UnknownId(UnknownHandle(h)) && claim == Claim("", tag, "", Some(UnknownHandle(h)))
  }

  ghost predicate ResolvesTo(tags: map<Tag, Ref>, handles: map<Handle, Ref>, choice: Choice, part: Part) {
    && part.field == choice.field && |part.citations| == |choice.citations| == |part.claims|
    && forall i :: 0 <= i < |choice.citations| ==>
         var h := choice.citations[i];
         if h in handles then CitesEntry(tags, handles[h], part.citations[i], part.claims[i])
         else CitesNothing(h, part.citations[i], part.claims[i])
  }

  ghost predicate AllResolve(tags: map<Tag, Ref>, handles: map<Handle, Ref>, choices: seq<Choice>, parts: seq<Part>) {
    |parts| == |choices| && forall i :: 0 <= i < |parts| ==> ResolvesTo(tags, handles, choices[i], parts[i])
  }

  ghost predicate WithinRegistry(registry: seq<Ref>, handles: map<Handle, Ref>) {
    forall h :: h in handles ==> handles[h] in registry && handles[h].source.category == h.category
  }

  method ResolveParts(registry: seq<Ref>, tags: map<Tag, Ref>, handles: map<Handle, Ref>, choices: seq<Choice>)
    returns (parts: seq<Part>)
    requires Tagged(registry, tags) && WithinRegistry(registry, handles)
    ensures AllResolve(tags, handles, choices, parts)
  {
    var byId := IndexById(registry, tags);
    var drafts := ToIdentities(choices, handles);
    var claimed := AttachSentences(drafts, byId);
    parts := [];
    var k := 0;
    while k < |claimed|
      invariant 0 <= k <= |claimed| && |parts| == k
      invariant forall i :: 0 <= i < k ==> ResolvesTo(tags, handles, choices[i], parts[i])
    {
      var part := AttachTrusted(claimed[k], byId);
      assert claimed[k].citations == Map(choices[k].citations, (h: Handle) => IdOf(handles, h));
      assert claimed[k].claims == SentenceClaims(byId, claimed[k].citations);
      PartResolves(registry, tags, handles, byId, choices[k], claimed[k].citations, part);
      parts := parts + [part];
      k := k + 1;
    }
  }

  lemma PartResolves(registry: seq<Ref>, tags: map<Tag, Ref>, handles: map<Handle, Ref>, byId: map<Ref, Tag>,
                     choice: Choice, ids: seq<Id>, part: Part)
    requires Indexed(registry, tags, byId) && WithinRegistry(registry, handles)
    requires ids == Map(choice.citations, (h: Handle) => IdOf(handles, h))
    requires part.field == choice.field
    requires part.citations == Map(ids, (id: Id) => TagById(byId, id))
    requires part.claims == Map(SentenceClaims(byId, ids), (c: DraftClaim) => Trusted(byId, c))
    ensures ResolvesTo(tags, handles, choice, part)
  {
    forall i | 0 <= i < |choice.citations|
      ensures var h := choice.citations[i];
        if h in handles then CitesEntry(tags, handles[h], part.citations[i], part.claims[i])
        else CitesNothing(h, part.citations[i], part.claims[i])
    {
      var h := choice.citations[i];
      assert ids[i] == IdOf(handles, h);
      assert part.claims[i] == Trusted(byId, DraftClaim(TextById(byId, ids[i]), ids[i]));
    }
  }

  /**
   * A selection is resolved when the registry is the candidate's and the scope is this request's; then
   * every handle is replaced by the entry this request's manifest gives it.
   */
  method ResolveCompactSelection(contains: Contains, selection: Selection, registry: seq<Ref>, tags: map<Tag, Ref>, candidate: int)
    returns (r: Resolution)
    requires SameSignature(registry) && Tagged(registry, tags)
    ensures r.WrongOwner? <==> exists e :: e in registry && e.source.candidate != candidate
    ensures r.ScopeMismatch? <==> !r.WrongOwner? && selection.scope != ScopeOf(contains, registry, candidate)
    ensures r.Resolved? ==> AllResolve(tags, selection.scope.handles, selection.choices, r.parts)
    ensures r.Resolved? ==> WithinRegistry(registry, selection.scope.handles)
  {
    var made := EvidenceManifest(contains, registry, Some(candidate));
    if made.CrossCandidate? {
      return WrongOwner;
    }
    var manifest := made.value;
    NumberedOnce(manifest.rows, manifest.handles);
    var scope := Scope(OwnersOf(registry) + {candidate}, manifest.handles, multiset(registry));
    if selection.scope != scope {
      return ScopeMismatch;
    }
    var parts := ResolveParts(registry, tags, manifest.handles, selection.choices);
    r := Resolved(parts);
  }
}
