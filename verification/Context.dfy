/**
 * The evaluation context: retrieved chunks are evicted until they fit, the CV is tiled into
 * passages, and passages are added while they fit. The running total is what a fresh count over the
 * final evidence gives, as long as no retrieved chunk is itself a passage.
 */
module Context {
  import opened Prelude

  /** Identities are hashes of what they name; a constructor is one-to-one like them. */
  datatype Ident = Given(name: string) | OfText(text: string) | OfSpan(start: nat, stop: nat)

  datatype Document = Retrieved(name: Option<string>) | WholeCv

  datatype Chunk = Chunk(document: Document, id: Option<Ident>, text: string)

  /** What makes two chunks the same source. */
  datatype Key = Key(document: Document, id: Ident, text: string)

  type Evidence = map<string, seq<Chunk>>

  function KeyOf(c: Chunk): Key {
    Key(c.document, if c.id.Some? then c.id.value else OfText(c.text), c.text)
  }

  /** Two chunks are one source: the same document and text, and the same id, a missing id standing for the text. */
  lemma SameSource(c: Chunk, d: Chunk)
    ensures KeyOf(c) == KeyOf(d) <==>
              && c.document == d.document && c.text == d.text
              && (c.id == d.id || (c.id.None? && d.id == Some(OfText(d.text))) || (d.id.None? && c.id == Some(OfText(c.text))))
    ensures KeyOf(c).text == c.text
  {
  }

  function Keys(evidence: Evidence): set<Key> {
    set cat, c | cat in evidence && c in evidence[cat] :: KeyOf(c)
  }

  // ----- characters of a set of sources

  ghost function Chars(keys: set<Key>): nat {
    if keys == {} then 0
    else
      var k :| k in keys;
      |k.text| + Chars(keys - {k})
  }

  lemma {:induction false} CharsAdd(keys: set<Key>, k: Key)
    requires k !in keys
    ensures Chars(keys + {k}) == Chars(keys) + |k.text|
    decreases |keys|
  {
    var all := keys + {k};
    var m :| m in all && Chars(all) == |m.text| + Chars(all - {m});
    if m == k {
      assert all - {m} == keys;
    } else {
      assert all - {m} == (keys - {m}) + {k};
      CharsAdd(keys - {m}, k);
      CharsAdd(keys - {m}, m);
      assert (keys - {m}) + {m} == keys;
    }
  }

  lemma {:induction false} CharsSubset(a: set<Key>, b: set<Key>)
    requires a <= b
    ensures Chars(a) <= Chars(b)
    decreases |b|
  {
    if a != b {
      var k :| k in b && k !in a;
      CharsSubset(a, b - {k});
      CharsAdd(b - {k}, k);
      assert (b - {k}) + {k} == b;
    }
  }

  /** Shared source chunks count once, whatever categories list them. */
  ghost function UniqueChars(evidence: Evidence): nat {
    Chars(Keys(evidence))
  }

  method CountUniqueChars(evidence: Evidence) returns (n: nat)
    ensures n == UniqueChars(evidence)
  {
    var rest := Keys(evidence);
    n := 0;
    while rest != {}
      invariant n + Chars(rest) == UniqueChars(evidence)
      decreases |rest|
    {
      var k :| k in rest;
      CharsAdd(rest - {k}, k);
      assert (rest - {k}) + {k} == rest;
      n, rest := n + |k.text|, rest - {k};
    }
  }

  // ----- eviction

  function TotalChars(chunks: seq<Chunk>): nat {
    if chunks == [] then 0 else TotalChars(chunks[..|chunks| - 1]) + |chunks[|chunks| - 1].text|
  }

  /** The categories of the payload, in its order. */
  ghost predicate Ordered(evidence: Evidence, order: seq<string>) {
    && Distinct(order)
    && (forall cat :: cat in order <==> cat in evidence)
  }

  function Largest(evidence: Evidence, order: seq<string>): (i: nat)
    requires order != [] && forall cat :: cat in order ==> cat in evidence
    ensures i < |order|
    ensures forall k :: 0 <= k < |order| ==> TotalChars(evidence[order[k]]) <= TotalChars(evidence[order[i]])
    ensures forall k :: 0 <= k < i ==> TotalChars(evidence[order[k]]) < TotalChars(evidence[order[i]])
  {
    if |order| == 1 then 0
    else
      var n := |order| - 1;
      assert forall cat :: cat in order[..n] ==> cat in order;
      var before := Largest(evidence, order[..n]);
      assert order[..n][before] == order[before];
      assert forall k :: 0 <= k < n ==> order[..n][k] == order[k];
      assert order[n] in order && order[before] in order;
      if TotalChars(evidence[order[n]]) > TotalChars(evidence[order[before]]) then n else before
  }

  function ChunkCount(evidence: Evidence, order: seq<string>): nat
    requires forall cat :: cat in order ==> cat in evidence
  {
    if order == [] then 0
    else
      assert order[|order| - 1] in order;
      assert forall cat :: cat in order[..|order| - 1] ==> cat in order;
      ChunkCount(evidence, order[..|order| - 1]) + |evidence[order[|order| - 1]]|
  }

  lemma {:induction false} TextCounts(chunks: seq<Chunk>, c: Chunk)
    requires c in chunks
    ensures |c.text| <= TotalChars(chunks)
  {
    var n := |chunks| - 1;
    assert chunks == chunks[..n] + [chunks[n]];
    if c in chunks[..n] {
      TextCounts(chunks[..n], c);
    }
  }

  lemma {:induction false} SomeText(keys: set<Key>)
    requires Chars(keys) > 0
    ensures exists k :: k in keys && |k.text| > 0
    decreases |keys|
  {
    var m :| m in keys && Chars(keys) == |m.text| + Chars(keys - {m});
    if |m.text| == 0 {
      SomeText(keys - {m});
      var k :| k in keys - {m} && |k.text| > 0;
      assert k in keys;
    }
  }

  /** With characters to spare there is a chunk to drop from the largest category. */
  lemma LargestIsNotEmpty(evidence: Evidence, order: seq<string>)
    requires Ordered(evidence, order) && UniqueChars(evidence) > 0
    ensures order != [] && evidence[order[Largest(evidence, order)]] != []
  {
    SomeText(Keys(evidence));
    var k :| k in Keys(evidence) && |k.text| > 0;
    var cat, c :| cat in evidence && c in evidence[cat] && KeyOf(c) == k;
    TextCounts(evidence[cat], c);
    assert cat in order;
    var i :| 0 <= i < |order| && order[i] == cat;
  }

  lemma {:induction false} CountDrops(evidence: Evidence, order: seq<string>, i: nat)
    requires Distinct(order) && (forall cat :: cat in order ==> cat in evidence)
    requires i < |order| && evidence[order[i]] != []
    ensures var chunks := evidence[order[i]];
      ChunkCount(evidence[order[i] := chunks[..|chunks| - 1]], order) < ChunkCount(evidence, order)
  {
    var n := |order| - 1;
    var chunks := evidence[order[i]];
    var evidence' := evidence[order[i] := chunks[..|chunks| - 1]];
    assert forall cat :: cat in order[..n] ==> cat in order;
    if i == n {
      CountSameElsewhere(evidence, evidence', order[..n]);
    } else {
      assert order[..n][i] == order[i];
      CountDrops(evidence, order[..n], i);
    }
  }

  lemma {:induction false} CountSameElsewhere(evidence: Evidence, evidence': Evidence, order: seq<string>)
    requires forall cat :: cat in order ==> cat in evidence && cat in evidence' && evidence'[cat] == evidence[cat]
    ensures ChunkCount(evidence', order) == ChunkCount(evidence, order)
  {
    if order != [] {
      assert forall cat :: cat in order[..|order| - 1] ==> cat in order;
      assert order[|order| - 1] in order;
      CountSameElsewhere(evidence, evidence', order[..|order| - 1]);
    }
  }

  /** Each category keeps a prefix of its chunks. */
  ghost predicate Prefixes(kept: Evidence, evidence: Evidence) {
    && kept.Keys == evidence.Keys
    && (forall cat :: cat in kept ==> kept[cat] <= evidence[cat])
  }

  lemma PrefixKeys(kept: Evidence, evidence: Evidence)
    requires Prefixes(kept, evidence)
    ensures Keys(kept) <= Keys(evidence) && UniqueChars(kept) <= UniqueChars(evidence)
  {
    forall k | k in Keys(kept) ensures k in Keys(evidence) {
      var cat, c :| cat in kept && c in kept[cat] && KeyOf(c) == k;
      assert c in evidence[cat];
    }
    CharsSubset(Keys(kept), Keys(evidence));
  }

  /** The evidence without the last chunk of its largest category. */
  ghost function DropLast(evidence: Evidence, order: seq<string>): (after: Evidence)
    requires Ordered(evidence, order) && UniqueChars(evidence) > 0
    ensures Ordered(after, order) && ChunkCount(after, order) < ChunkCount(evidence, order)
  {
    LargestIsNotEmpty(evidence, order);
    var i := Largest(evidence, order);
    assert order[i] in order;
    CountDrops(evidence, order, i);
    var chunks := evidence[order[i]];
    evidence[order[i] := chunks[..|chunks| - 1]]
  }

  /** What is left when the largest category loses its last chunk until the limit is met. */
  ghost function Evicted(evidence: Evidence, order: seq<string>, limit: nat): Evidence
    requires Ordered(evidence, order)
    decreases ChunkCount(evidence, order)
  {
    if UniqueChars(evidence) <= limit then evidence else Evicted(DropLast(evidence, order), order, limit)
  }

  function TextLength(): Chunk -> int {
    (c: Chunk) => |c.text|
  }

  lemma {:induction false} TotalIsSum(chunks: seq<Chunk>)
    ensures TotalChars(chunks) == Sum(chunks, TextLength())
  {
    if chunks != [] {
      TotalIsSum(chunks[..|chunks| - 1]);
    }
  }

  /** Category `i` lists the most characters, and is the first to list as many. */
  ghost predicate Heaviest(evidence: Evidence, order: seq<string>, i: nat) {
    && i < |order| && order[i] in evidence
    && (forall k :: 0 <= k < |order| && order[k] in evidence ==>
          Sum(evidence[order[k]], TextLength()) <= Sum(evidence[order[i]], TextLength()))
    && (forall k :: 0 <= k < i && order[k] in evidence ==>
          Sum(evidence[order[k]], TextLength()) < Sum(evidence[order[i]], TextLength()))
  }

  /** The heaviest category has lost its last chunk, which goes by its id, or by its text when it has none. */
  ghost predicate LostLast(before: Evidence, after: Evidence, order: seq<string>, gone: Ident) {
    exists i: nat ::
      && Heaviest(before, order, i) && before[order[i]] != []
      && var chunks := before[order[i]];
         var last := chunks[|chunks| - 1];
      && after == before[order[i] := chunks[..|chunks| - 1]]
      && gone == (if last.id.Some? then last.id.value else OfText(last.text))
  }

  /** One chunk after the other has been lost, each while the rest was over the limit. */
  ghost predicate Evictions(states: seq<Evidence>, gone: seq<Ident>, order: seq<string>, limit: nat) {
    && |states| == |gone| + 1
    && forall k :: 0 <= k < |gone| ==>
         UniqueChars(states[k]) > limit && LostLast(states[k], states[k + 1], order, gone[k])
  }

  ghost predicate EvictedInTurn(evidence: Evidence, kept: Evidence, states: seq<Evidence>, gone: seq<Ident>,
                                order: seq<string>, limit: nat)
  {
    Evictions(states, gone, order, limit) && states[0] == evidence && states[|gone|] == kept
  }

  lemma NextEviction(evidence: Evidence, kept: Evidence, states: seq<Evidence>, gone: seq<Ident>, order: seq<string>,
                     limit: nat, after: Evidence, name: Ident)
    requires EvictedInTurn(evidence, kept, states, gone, order, limit)
    requires UniqueChars(kept) > limit && LostLast(kept, after, order, name)
    ensures EvictedInTurn(evidence, after, states + [after], gone + [name], order, limit)
  {
    var states', gone' := states + [after], gone + [name];
    forall k | 0 <= k < |gone'|
      ensures UniqueChars(states'[k]) > limit && LostLast(states'[k], states'[k + 1], order, gone'[k])
    {
      if k < |gone| {
        assert UniqueChars(states[k]) > limit;
      }
    }
  }

  lemma LargestIsHeaviest(evidence: Evidence, order: seq<string>)
    requires order != [] && forall cat :: cat in order ==> cat in evidence
    ensures Heaviest(evidence, order, Largest(evidence, order))
  {
    forall k | 0 <= k < |order| ensures order[k] in order {
    }
    forall cat | cat in evidence ensures TotalChars(evidence[cat]) == Sum(evidence[cat], TextLength()) {
      TotalIsSum(evidence[cat]);
    }
  }

  method DropLargest(kept: Evidence, order: seq<string>) returns (after: Evidence, gone: Ident)
    requires Ordered(kept, order) && UniqueChars(kept) > 0
    ensures after == DropLast(kept, order)
    ensures LostLast(kept, after, order, gone)
    ensures Prefixes(after, kept) && after != kept
  {
    LargestIsNotEmpty(kept, order);
    LargestIsHeaviest(kept, order);
    var cat := order[Largest(kept, order)];
    assert cat in order;
    var chunks := kept[cat];
    var removed := chunks[|chunks| - 1];
    after := kept[cat := chunks[..|chunks| - 1]];
    assert |after[cat]| < |kept[cat]|;
    gone := if removed.id.Some? then removed.id.value else OfText(removed.text);
  }

  lemma PrefixesCompose(a: Evidence, b: Evidence, c: Evidence)
    requires Prefixes(a, b) && Prefixes(b, c)
    ensures Prefixes(a, c) && (a == c ==> a == b)
  {
    forall cat | cat in a ensures a[cat] <= c[cat] && (a == c ==> a[cat] == b[cat]) {
      assert a[cat] <= b[cat] <= c[cat];
    }
  }

  /** Drop the last chunk of the largest category until the rest fits. */
  method Evict(evidence: Evidence, order: seq<string>, limit: nat)
    returns (kept: Evidence, used: nat, omitted: seq<Ident>, ghost states: seq<Evidence>)
    requires Ordered(evidence, order) && 1 <= limit
    ensures kept == Evicted(evidence, order, limit)
    ensures EvictedInTurn(evidence, kept, states, omitted, order, limit)
    ensures Prefixes(kept, evidence) && used == UniqueChars(kept) <= limit
    ensures omitted == [] <==> kept == evidence
    ensures UniqueChars(evidence) <= limit <==> omitted == []
  {
    kept, omitted, states := evidence, [], [evidence];
    used := CountUniqueChars(kept);
    while used > limit
      invariant Ordered(kept, order) && Prefixes(kept, evidence)
      invariant Evicted(kept, order, limit) == Evicted(evidence, order, limit)
      invariant EvictedInTurn(evidence, kept, states, omitted, order, limit)
      invariant used == UniqueChars(kept)
      invariant omitted == [] <==> kept == evidence
      invariant omitted != [] ==> UniqueChars(evidence) > limit
      decreases ChunkCount(kept, order)
    {
      PrefixKeys(kept, evidence);
      var after, gone := DropLargest(kept, order);
      PrefixesCompose(after, kept, evidence);
      NextEviction(evidence, kept, states, omitted, order, limit, after, gone);
      kept, omitted, states := after, omitted + [gone], states + [after];
      used := CountUniqueChars(kept);
    }
  }

  // ----- tiling the CV

  /** A piece of the CV: its place, and the section it lies in. */
  datatype Piece = Piece(start: nat, stop: nat, section: int)

  /** Consecutive pieces from `first` to `last`, none of them empty. */
  ghost predicate Tiles(pieces: seq<Piece>, first: nat, last: nat) {
    && first <= last
    && (pieces == [] ==> first == last)
    && (pieces != [] ==> pieces[0].start == first && pieces[|pieces| - 1].stop == last)
    && (forall i :: 0 <= i < |pieces| ==> pieces[i].start < pieces[i].stop)
    && (forall i :: 0 <= i < |pieces| - 1 ==> pieces[i].stop == pieces[i + 1].start)
  }

  /** The last newline of the text in `lo..hi`, if there is one. */
  method LastNewline(text: string, lo: nat, hi: nat) returns (at: int)
    requires lo <= hi <= |text|
    ensures at == -1 || (lo <= at < hi && text[at] == '\n')
    ensures forall k :: lo <= k < hi && at < k ==> text[k] != '\n'
  {
    at := hi - 1;
    while at >= lo
      invariant lo - 1 <= at < hi && forall k :: at < k < hi ==> text[k] != '\n'
    {
      if text[at] == '\n' {
        return;
      }
      at := at - 1;
    }
    at := -1;
  }

  /**
   * Where a piece of a section ending at `last` must stop: at its end if that is within 3000
   * characters, else after the last newline of the second half, else after 3000 characters.
   */
  ghost predicate CutRight(text: string, p: Piece, last: nat, wholeUnits: bool)
    requires last <= |text|
  {
    var full := p.start + 3000;
    && p.start < p.stop <= last
    && if wholeUnits || last <= full then p.stop == last
       else
         && (p.stop == full || (p.start + 1500 < p.stop <= full && text[p.stop - 1] == '\n'))
         && forall k :: p.start + 1500 <= k < full && text[k] == '\n' ==> k < p.stop && text[p.stop - 1] == '\n'
  }

  ghost predicate AllCutRight(text: string, pieces: seq<Piece>, last: nat, wholeUnits: bool)
    requires last <= |text|
  {
    forall i :: 0 <= i < |pieces| ==> CutRight(text, pieces[i], last, wholeUnits)
  }

  /** The next piece of a section. */
  method NextPiece(text: string, section: int, start: nat, last: nat, wholeUnits: bool) returns (p: Piece)
    requires start < last <= |text|
    ensures p.start == start && p.section == section && CutRight(text, p, last, wholeUnits)
  {
    var stop := if wholeUnits then last else Min(start + 3000, last);
    if stop < last {
      var boundary := LastNewline(text, start + 1500, stop);
      if boundary >= 0 {
        stop := boundary + 1;
      }
    }
    p := Piece(start, stop, section);
  }

  method TileSection(text: string, section: int, first: nat, last: nat, wholeUnits: bool) returns (pieces: seq<Piece>)
    requires first <= last <= |text|
    ensures Tiles(pieces, first, last) && AllCutRight(text, pieces, last, wholeUnits)
    ensures forall i :: 0 <= i < |pieces| ==> pieces[i].section == section
  {
    pieces := [];
    var start := first;
    while start < last
      invariant first <= start <= last && Tiles(pieces, first, start)
      invariant AllCutRight(text, pieces, last, wholeUnits)
      invariant forall i :: 0 <= i < |pieces| ==> pieces[i].section == section
    {
      var piece := NextPiece(text, section, start, last, wholeUnits);
      pieces := pieces + [piece];
      start := piece.stop;
    }
  }

  ghost predicate Boundaries(starts: seq<nat>, n: nat) {
    && (forall i :: 0 <= i < |starts| ==> starts[i] <= n)
    && (forall i, j :: 0 <= i < j < |starts| ==> starts[i] <= starts[j])
  }

  lemma TilesJoin(a: seq<Piece>, b: seq<Piece>, first: nat, middle: nat, last: nat)
    requires Tiles(a, first, middle) && Tiles(b, middle, last)
    ensures Tiles(a + b, first, last)
  {
    forall i | 0 <= i < |a + b| - 1 ensures (a + b)[i].stop == (a + b)[i + 1].start {
      if i == |a| - 1 && b != [] {
        assert (a + b)[i + 1] == b[0];
      }
    }
    if a == [] {
      assert a + b == b;
    } else if b == [] {
      assert a + b == a;
    }
  }

  /** Where section `i` starts and ends; section 0 is what precedes the first header. */
  function SectionStart(headers: seq<nat>, i: nat): nat
    requires i <= |headers|
  {
    if i == 0 then 0 else headers[i - 1]
  }

  function SectionEnd(headers: seq<nat>, n: nat, i: nat): nat
    requires i <= |headers|
  {
    if i < |headers| then headers[i] else n
  }

  /** The piece lies within its section and stops where it must. */
  ghost predicate PieceOk(text: string, headers: seq<nat>, p: Piece, wholeUnits: bool)
    requires Boundaries(headers, |text|)
  {
    && 0 <= p.section <= |headers| && SectionStart(headers, p.section) <= p.start
    && CutRight(text, p, SectionEnd(headers, |text|, p.section), wholeUnits)
  }

  lemma SectionPieces(text: string, headers: seq<nat>, i: nat, pieces: seq<Piece>, wholeUnits: bool, k: nat)
    requires Boundaries(headers, |text|) && i <= |headers| && k < |pieces|
    requires Tiles(pieces, SectionStart(headers, i), SectionEnd(headers, |text|, i))
    requires AllCutRight(text, pieces, SectionEnd(headers, |text|, i), wholeUnits)
    requires forall j :: 0 <= j < |pieces| ==> pieces[j].section == i
    ensures PieceOk(text, headers, pieces[k], wholeUnits)
  {
    OrderedTiles(pieces, k);
  }

  /** Section by section, from the start of the text and then each header, to its end. */
  method TileCv(text: string, headers: seq<nat>, wholeUnits: bool) returns (pieces: seq<Piece>)
    requires Boundaries(headers, |text|)
    ensures Tiles(pieces, 0, |text|) && Joined(text, pieces) == text
    ensures forall i :: 0 <= i < |pieces| ==> PieceOk(text, headers, pieces[i], wholeUnits)
  {
    pieces := [];
    var i := 0;
    while i <= |headers|
      invariant 0 <= i <= |headers| + 1
      invariant Tiles(pieces, 0, if i <= |headers| then SectionStart(headers, i) else |text|)
      invariant forall k :: 0 <= k < |pieces| ==> PieceOk(text, headers, pieces[k], wholeUnits)
    {
      var start, end := SectionStart(headers, i), SectionEnd(headers, |text|, i);
      var section := TileSection(text, i, start, end, wholeUnits);
      TilesJoin(pieces, section, 0, start, end);
      forall k | 0 <= k < |section| ensures PieceOk(text, headers, section[k], wholeUnits) {
        SectionPieces(text, headers, i, section, wholeUnits, k);
      }
      pieces := pieces + section;
      i := i + 1;
    }
    TilesRebuild(text, pieces, |text|);
  }

  function Body(text: string, p: Piece): string {
    if p.start <= p.stop <= |text| then text[p.start..p.stop] else ""
  }

  function Joined(text: string, pieces: seq<Piece>): string {
    if pieces == [] then "" else Joined(text, pieces[..|pieces| - 1]) + Body(text, pieces[|pieces| - 1])
  }

  /** Put together, the pieces are the text: nothing is lost between passages. */
  lemma {:induction false} TilesRebuild(text: string, pieces: seq<Piece>, last: nat)
    requires last <= |text| && Tiles(pieces, 0, last)
    ensures Joined(text, pieces) == text[..last]
  {
    if pieces != [] {
      var n := |pieces| - 1;
      var front := pieces[..n];
      assert Tiles(front, 0, pieces[n].start) by {
        if n > 0 {
          assert front[n - 1].stop == pieces[n].start;
          OrderedTiles(pieces, n - 1);
        }
      }
      TilesRebuild(text, front, pieces[n].start);
      assert text[..last] == text[..pieces[n].start] + text[pieces[n].start..last];
    }
  }

  lemma {:induction false} OrderedTiles(pieces: seq<Piece>, i: nat)
    requires i < |pieces| && Tiles(pieces, pieces[0].start, pieces[|pieces| - 1].stop)
    ensures pieces[0].start <= pieces[i].start < pieces[i].stop <= pieces[|pieces| - 1].stop
  {
    TilesRise(pieces, 0, i);
    TilesRise(pieces, i, |pieces| - 1);
  }

  lemma {:induction false} TilesRise(pieces: seq<Piece>, i: nat, j: nat)
    requires i <= j < |pieces| && Tiles(pieces, pieces[0].start, pieces[|pieces| - 1].stop)
    ensures pieces[i].start <= pieces[j].start && pieces[i].stop <= pieces[j].stop
    ensures i < j ==> pieces[i].stop <= pieces[j].start
    decreases j - i
  {
    if i < j {
      TilesRise(pieces, i, j - 1);
      assert pieces[j - 1].stop == pieces[j].start;
    }
  }
}
