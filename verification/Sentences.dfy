/**
 * Citable sentences: every source is split at its sentence ends without losing a character, and each
 * nonblank sentence becomes a registry entry bound to its source and span.
 */
module Sentences {
  import opened Prelude
  import opened Context

  datatype Category = Skills | Experience | Projects | Education

  const CATEGORIES: seq<Category> := [Skills, Experience, Projects, Education]

  datatype Origin = FromSkills | FromExperience | FromProjects | FromEducation | FromContext

  /** A chunk listed under a category. `location` is where its document says it is. */
  datatype Source = Source(
    candidate: int,
    category: Category,
    document: Document,
    chunk: string,
    origin: Origin,
    location: int,
    text: string)

  /** A sentence of a source. Its identity is a hash of all of this, so the entry stands for its id. */
  datatype Ref = Ref(source: Source, start: nat, stop: nat)

  function TextOf(r: Ref): string {
    if r.start <= r.stop <= |r.source.text| then r.source.text[r.start..r.stop] else ""
  }

  /** Sentence ends found in a text, increasing. */
  ghost predicate Ends(ends: seq<nat>, n: nat) {
    && (forall i :: 0 <= i < |ends| ==> ends[i] <= n)
    && (forall i, j :: 0 <= i < j < |ends| ==> ends[i] < ends[j])
  }

  /** The nonblank ones among the pieces of a source. */
  function RefsOf(source: Source, blank: string -> bool, pieces: seq<Piece>): seq<Ref> {
    if pieces == [] then []
    else
      var before, last := RefsOf(source, blank, pieces[..|pieces| - 1]), pieces[|pieces| - 1];
      if blank(Body(source.text, last)) then before else before + [Ref(source, last.start, last.stop)]
  }

  /** Where the piece that ends at stop `i` starts. */
  function Before(stops: seq<nat>, i: nat): nat
    requires i <= |stops|
  {
    if i == 0 then 0 else stops[i - 1]
  }

  /** Stops rise, and the last one is the end of the text. */
  ghost predicate Stops(stops: seq<nat>, n: nat) {
    && stops != [] && stops[|stops| - 1] == n
    && forall i :: 0 <= i < |stops| ==> Before(stops, i) <= stops[i] <= n
  }

  lemma EndsAreStops(ends: seq<nat>, n: nat)
    requires Ends(ends, n)
    ensures Stops(ends + [n], n)
  {
  }

  /** The pieces between consecutive stops, without the empty ones. */
  function PiecesAt(stops: seq<nat>): seq<Piece> {
    if stops == [] then []
    else
      var n := |stops| - 1;
      var before, start := PiecesAt(stops[..n]), Before(stops, n);
      if start < stops[n] then before + [Piece(start, stops[n], 0)] else before
  }

  /** The sentences of a source: cut at every end and at the end of the text, nonblank pieces only. */
  function SentencesOf(source: Source, ends: seq<nat>, blank: string -> bool): seq<Ref> {
    RefsOf(source, blank, PiecesAt(ends + [|source.text|]))
  }

  /** A split loses nothing: the pieces put together are the text, and the nonblank ones are entries. */
  ghost predicate SplitInto(source: Source, blank: string -> bool, refs: seq<Ref>, pieces: seq<Piece>) {
    && Tiles(pieces, 0, |source.text|) && Joined(source.text, pieces) == source.text
    && refs == RefsOf(source, blank, pieces)
  }

  ghost predicate Splitting(source: Source, blank: string -> bool, stops: seq<nat>, i: nat, start: nat, refs: seq<Ref>)
    requires i <= |stops|
  {
    var pieces := PiecesAt(stops[..i]);
    && start == Before(stops, i)
    && Tiles(pieces, 0, start) && refs == RefsOf(source, blank, pieces)
  }

  lemma NextPieces(stops: seq<nat>, i: nat)
    requires i < |stops|
    ensures var start := Before(stops, i);
      PiecesAt(stops[..i + 1])
      == if start < stops[i] then PiecesAt(stops[..i]) + [Piece(start, stops[i], 0)] else PiecesAt(stops[..i])
  {
    assert stops[..i + 1][..i] == stops[..i];
  }

  lemma AddPiece(source: Source, blank: string -> bool, pieces: seq<Piece>, start: nat, stop: nat)
    requires start < stop <= |source.text| && Tiles(pieces, 0, start)
    ensures Tiles(pieces + [Piece(start, stop, 0)], 0, stop)
    ensures RefsOf(source, blank, pieces + [Piece(start, stop, 0)])
         == if blank(source.text[start..stop]) then RefsOf(source, blank, pieces)
            else RefsOf(source, blank, pieces) + [Ref(source, start, stop)]
  {
    assert (pieces + [Piece(start, stop, 0)])[..|pieces|] == pieces;
  }

  lemma SplitNext(source: Source, blank: string -> bool, stops: seq<nat>, i: nat, start: nat, refs: seq<Ref>)
    requires i < |stops| && start <= stops[i] <= |source.text| && blank("")
    requires Splitting(source, blank, stops, i, start, refs)
    ensures Splitting(source, blank, stops, i + 1, stops[i],
              if blank(source.text[start..stops[i]]) then refs else refs + [Ref(source, start, stops[i])])
  {
    NextPieces(stops, i);
    if start < stops[i] {
      AddPiece(source, blank, PiecesAt(stops[..i]), start, stops[i]);
    } else {
      assert source.text[start..stops[i]] == "";
    }
  }

  lemma SplitDone(source: Source, ends: seq<nat>, blank: string -> bool, stops: seq<nat>, refs: seq<Ref>)
    requires stops == ends + [|source.text|] && Splitting(source, blank, stops, |stops|, |source.text|, refs)
    ensures refs == SentencesOf(source, ends, blank) && SplitInto(source, blank, refs, PiecesAt(stops))
  {
    assert stops[..|stops|] == stops;
    TilesRebuild(source.text, PiecesAt(stops), |source.text|);
    assert source.text[..|source.text|] == source.text;
  }

  /** Cut at every end and at the end of the text; `start` moves along. An empty piece is blank. */
  method SplitSource(source: Source, ends: seq<nat>, blank: string -> bool) returns (refs: seq<Ref>)
    requires Ends(ends, |source.text|) && blank("")
    ensures refs == SentencesOf(source, ends, blank)
    ensures SplitInto(source, blank, refs, PiecesAt(ends + [|source.text|]))
  {
    refs := [];
    var stops := ends + [|source.text|];
    EndsAreStops(ends, |source.text|);
    var start := 0;
    var i := 0;
    while i < |stops|
      invariant 0 <= i <= |stops| && start == Before(stops, i)
      invariant Splitting(source, blank, stops, i, start, refs)
    {
      assert Before(stops, i) <= stops[i] <= |source.text|;
      SplitNext(source, blank, stops, i, start, refs);
      var end := stops[i];
      var text := source.text[start..end];
      if !blank(text) {
        refs := refs + [Ref(source, start, end)];
      }
      start := end;
      i := i + 1;
    }
    SplitDone(source, ends, blank, stops, refs);
  }

  lemma {:induction false} RefsAreNonblank(source: Source, blank: string -> bool, pieces: seq<Piece>)
    requires forall p :: p in pieces ==> p.start < p.stop <= |source.text|
    ensures forall r :: r in RefsOf(source, blank, pieces) ==>
              r.source == source && r.start < r.stop <= |source.text| && !blank(TextOf(r))
  {
    if pieces != [] {
      var n := |pieces| - 1;
      assert pieces[n] in pieces;
      assert forall p :: p in pieces[..n] ==> p in pieces;
      RefsAreNonblank(source, blank, pieces[..n]);
    }
  }

  /** Entries are citable: they come from the given sources and are not blank. */
  ghost predicate Citable(refs: seq<Ref>, sources: seq<Source>, blank: string -> bool) {
    forall i :: 0 <= i < |refs| ==>
      refs[i].source in sources && refs[i].start < refs[i].stop <= |refs[i].source.text| && !blank(TextOf(refs[i]))
  }

  ghost predicate AllListed(refs: seq<Ref>, registry: seq<Ref>) {
    forall r :: r in refs ==> r in registry
  }

  /** The source is split without loss, and every nonblank piece has its entry. */
  ghost predicate Lossless(source: Source, blank: string -> bool, registry: seq<Ref>) {
    exists refs, pieces :: SplitInto(source, blank, refs, pieces) && AllListed(refs, registry)
  }

  lemma LosslessMore(source: Source, blank: string -> bool, registry: seq<Ref>, more: seq<Ref>)
    requires Lossless(source, blank, registry)
    ensures Lossless(source, blank, registry + more)
  {
    var refs, pieces :| SplitInto(source, blank, refs, pieces) && AllListed(refs, registry);
    assert AllListed(refs, registry + more);
  }

  /** The sentences of all sources, in order. */
  function AllSentences(sources: seq<Source>, ends: seq<seq<nat>>, blank: string -> bool): seq<Ref>
    requires |ends| == |sources|
  {
    if sources == [] then []
    else
      var n := |sources| - 1;
      AllSentences(sources[..n], ends[..n], blank) + SentencesOf(sources[n], ends[n], blank)
  }

  ghost predicate AllLossless(sources: seq<Source>, blank: string -> bool, registry: seq<Ref>) {
    forall i :: 0 <= i < |sources| ==> Lossless(sources[i], blank, registry)
  }

  ghost predicate Registered(sources: seq<Source>, blank: string -> bool, registry: seq<Ref>) {
    Citable(registry, sources, blank) && AllLossless(sources, blank, registry)
  }

  lemma RegisterNext(sources: seq<Source>, blank: string -> bool, registry: seq<Ref>, source: Source, refs: seq<Ref>,
                     pieces: seq<Piece>, all: seq<Source>, more: seq<Ref>)
    requires Registered(sources, blank, registry) && SplitInto(source, blank, refs, pieces)
    requires all == sources + [source] && more == registry + refs
    ensures Registered(all, blank, more)
  {
    SplitIsCitable(source, blank, refs, pieces);
    forall k | 0 <= k < |all| ensures Lossless(all[k], blank, more) {
      if k < |sources| {
        LosslessMore(sources[k], blank, registry, refs);
      } else {
        assert SplitInto(source, blank, refs, pieces) && AllListed(refs, more);
      }
    }
    forall i | 0 <= i < |more|
      ensures more[i].source in all && more[i].start < more[i].stop <= |more[i].source.text| && !blank(TextOf(more[i]))
    {
      if i >= |registry| {
        assert refs[i - |registry|] in refs;
      }
    }
  }

  lemma SentencesNext(sources: seq<Source>, ends: seq<seq<nat>>, blank: string -> bool, i: nat)
    requires |ends| == |sources| && i < |sources|
    ensures AllSentences(sources[..i + 1], ends[..i + 1], blank)
         == AllSentences(sources[..i], ends[..i], blank) + SentencesOf(sources[i], ends[i], blank)
  {
    assert sources[..i + 1][..i] == sources[..i] && ends[..i + 1][..i] == ends[..i];
  }

  method RegisterOne(sources: seq<Source>, ends: seq<seq<nat>>, blank: string -> bool, i: nat, registry: seq<Ref>)
    returns (more: seq<Ref>)
    requires |ends| == |sources| && i < |sources| && blank("") && Ends(ends[i], |sources[i].text|)
    requires registry == AllSentences(sources[..i], ends[..i], blank) && Registered(sources[..i], blank, registry)
    ensures more == AllSentences(sources[..i + 1], ends[..i + 1], blank) && Registered(sources[..i + 1], blank, more)
  {
    var refs := SplitSource(sources[i], ends[i], blank);
    more := registry + refs;
    SentencesNext(sources, ends, blank, i);
    RegisterAt(sources, blank, i, registry, refs, PiecesAt(ends[i] + [|sources[i].text|]));
  }

  lemma RegisterAt(sources: seq<Source>, blank: string -> bool, i: nat, registry: seq<Ref>, refs: seq<Ref>, pieces: seq<Piece>)
    requires i < |sources| && Registered(sources[..i], blank, registry) && SplitInto(sources[i], blank, refs, pieces)
    ensures Registered(sources[..i + 1], blank, registry + refs)
  {
    RegisterNext(sources[..i], blank, registry, sources[i], refs, pieces, sources[..i + 1], registry + refs);
  }

  method SentenceRegistry(sources: seq<Source>, ends: seq<seq<nat>>, blank: string -> bool) returns (registry: seq<Ref>)
    requires |ends| == |sources| && blank("")
    requires forall i :: 0 <= i < |sources| ==> Ends(ends[i], |sources[i].text|)
    ensures registry == AllSentences(sources, ends, blank)
    ensures Registered(sources, blank, registry)
  {
    registry := [];
    var i := 0;
    while i < |sources|
      invariant 0 <= i <= |sources|
      invariant registry == AllSentences(sources[..i], ends[..i], blank)
      invariant Registered(sources[..i], blank, registry)
    {
      registry := RegisterOne(sources, ends, blank, i, registry);
      i := i + 1;
    }
    assert sources[..i] == sources && ends[..i] == ends;
  }

  lemma SplitIsCitable(source: Source, blank: string -> bool, refs: seq<Ref>, pieces: seq<Piece>)
    requires SplitInto(source, blank, refs, pieces)
    ensures forall r :: r in refs ==> r.source == source && r.start < r.stop <= |source.text| && !blank(TextOf(r))
  {
    forall p | p in pieces ensures p.start < p.stop <= |source.text| {
      var i :| 0 <= i < |pieces| && pieces[i] == p;
      OrderedTiles(pieces, i);
    }
    RefsAreNonblank(source, blank, pieces);
  }
}
