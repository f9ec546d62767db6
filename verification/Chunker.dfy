/**
 * Cutting a CV section into chunks: long blocks are split at spaces (or mid-word when there is none),
 * then pieces are packed greedily. Nothing but whitespace is lost, every chunk fits, and a chunk stays
 * below the minimum only when it had to.
 */
module Chunker {
  import opened Prelude

  type Space = char -> bool

  datatype Chunk = Chunk(section: string, index: nat, text: string, length: nat)

  datatype Result = Chunks(chunks: seq<Chunk>) | InvalidBounds

  // ----- whitespace

  function Strip(space: Space, s: string): (t: string)
    ensures |t| <= |s|
  {
    if s == "" then ""
    else if space(s[0]) then Strip(space, s[1..])
    else if space(s[|s| - 1]) then Strip(space, s[..|s| - 1])
    else s
  }

  /** No whitespace at either end. */
  predicate Tight(space: Space, s: string) {
    s != "" ==> !space(s[0]) && !space(s[|s| - 1])
  }

  /** The text with all its whitespace taken out. */
  function Erase(space: Space, s: string): string {
    Filter(s, (c: char) => !space(c))
  }

  function EraseAll(space: Space, texts: seq<string>): string {
    if texts == [] then ""
    else EraseAll(space, texts[..|texts| - 1]) + Erase(space, texts[|texts| - 1])
  }

  lemma EraseAppend(space: Space, a: string, b: string)
    ensures Erase(space, a + b) == Erase(space, a) + Erase(space, b)
  {
    FilterAppend(a, b, (c: char) => !space(c));
  }

  lemma EraseSpace(space: Space, s: string)
    requires forall c :: c in s ==> space(c)
    ensures Erase(space, s) == ""
  {
    FilterNone(s, (c: char) => !space(c));
  }

  lemma {:induction false} EraseAllAppend(space: Space, a: seq<string>, b: seq<string>)
    ensures EraseAll(space, a + b) == EraseAll(space, a) + EraseAll(space, b)
  {
    if b == [] {
      assert a + b == a;
    } else {
      assert (a + b)[..|a + b| - 1] == a + b[..|b| - 1];
      EraseAllAppend(space, a, b[..|b| - 1]);
    }
  }

  lemma EraseOne(space: Space, s: string)
    ensures EraseAll(space, [s]) == Erase(space, s)
  {
    assert [s][..0] == [];
    assert EraseAll(space, []) == "";
  }

  lemma {:induction false} StripLosesOnlySpace(space: Space, s: string)
    ensures Tight(space, Strip(space, s))
    ensures Erase(space, Strip(space, s)) == Erase(space, s)
    ensures (exists i :: 0 <= i < |s| && !space(s[i])) ==> Strip(space, s) != ""
  {
    if s == "" {
    } else if space(s[0]) {
      StripLosesOnlySpace(space, s[1..]);
      assert s == s[..1] + s[1..];
      EraseAppend(space, s[..1], s[1..]);
      EraseSpace(space, s[..1]);
      if i :| 0 <= i < |s| && !space(s[i]) {
        assert s[1..][i - 1] == s[i];
      }
    } else if space(s[|s| - 1]) {
      var n := |s| - 1;
      StripLosesOnlySpace(space, s[..n]);
      assert s == s[..n] + s[n..];
      EraseAppend(space, s[..n], s[n..]);
      EraseSpace(space, s[n..]);
      assert !space(s[..n][0]);
    }
  }

  // ----- splitting blocks

  /** The last space among the first `hi` + 1 characters, or -1. */
  function LastSpace(s: string, hi: int): (at: int)
    requires hi < |s|
    decreases hi + 1
    ensures at == -1 || (0 <= at <= hi && s[at] == ' ')
    ensures forall i :: 0 <= i <= hi && s[i] == ' ' ==> i <= at
  {
    if hi < 0 then -1 else if s[hi] == ' ' then hi else LastSpace(s, hi - 1)
  }

  /** Where a block that is too long is cut: at its last space that fits, or mid-word if there is none. */
  function CutPoint(s: string, capacity: nat): (at: nat)
    requires 1 <= capacity < |s|
    ensures 0 < at <= capacity
    ensures s[at] == ' ' ==> forall i :: at < i <= capacity ==> s[i] != ' '
    ensures s[at] != ' ' ==> at == capacity && forall i :: 0 < i <= capacity ==> s[i] != ' '
  {
    var boundary := LastSpace(s, capacity);
    if boundary <= 0 then capacity else boundary
  }

  /** The pieces of a block. */
  function SplitOf(space: Space, capacity: nat, s: string): seq<string>
    requires capacity >= 1
    decreases |s|
  {
    if |s| <= capacity then (if s == "" then [] else [s])
    else
      var at := CutPoint(s, capacity);
      [Strip(space, s[..at])] + SplitOf(space, capacity, Strip(space, s[at..]))
  }

  ghost predicate Fits(space: Space, capacity: nat, pieces: seq<string>) {
    forall i :: 0 <= i < |pieces| ==> pieces[i] != "" && |pieces[i]| <= capacity && Tight(space, pieces[i])
  }

  lemma AddPiece(space: Space, capacity: nat, pieces: seq<string>, piece: string)
    requires Fits(space, capacity, pieces)
    requires piece != "" && |piece| <= capacity && Tight(space, piece)
    ensures Fits(space, capacity, pieces + [piece])
    ensures EraseAll(space, pieces + [piece]) == EraseAll(space, pieces) + Erase(space, piece)
  {
    assert (pieces + [piece])[..|pieces|] == pieces;
  }

  ghost predicate Splitting(space: Space, capacity: nat, block: string, pieces: seq<string>, rest: string)
    requires capacity >= 1
  {
    && Fits(space, capacity, pieces) && EraseAll(space, pieces) + Erase(space, rest) == Erase(space, block)
    && pieces + SplitOf(space, capacity, rest) == SplitOf(space, capacity, block)
  }

  lemma Regroup<T>(a: seq<T>, b: seq<T>, c: seq<T>)
    ensures (a + b) + c == a + (b + c)
  {
  }

  lemma CutPiece(space: Space, capacity: nat, block: string, pieces: seq<string>, rest: string, piece: string, tail: string)
    requires capacity >= 1 && Splitting(space, capacity, block, pieces, rest)
    requires piece != "" && |piece| <= capacity && Tight(space, piece)
    requires Erase(space, piece) + Erase(space, tail) == Erase(space, rest)
    requires SplitOf(space, capacity, rest) == [piece] + SplitOf(space, capacity, tail)
    ensures Splitting(space, capacity, block, pieces + [piece], tail)
  {
    AddPiece(space, capacity, pieces, piece);
    Regroup(EraseAll(space, pieces), Erase(space, piece), Erase(space, tail));
    Regroup(pieces, [piece], SplitOf(space, capacity, tail));
  }

  /** A tight block ends up as pieces that fit; taken together they differ from it in whitespace only. */
  method SplitBlock(space: Space, capacity: nat, block: string) returns (pieces: seq<string>)
    requires capacity >= 1 && Tight(space, block)
    ensures pieces == SplitOf(space, capacity, block)
    ensures Fits(space, capacity, pieces)
    ensures EraseAll(space, pieces) == Erase(space, block)
  {
    pieces := [];
    var rest := block;
    while |rest| > capacity
      invariant Tight(space, rest) && Splitting(space, capacity, block, pieces, rest)
      decreases |rest|
    {
      var boundary := LastSpace(rest, capacity);
      if boundary <= 0 {
        boundary := capacity;
      }
      var piece, tail := Strip(space, rest[..boundary]), Strip(space, rest[boundary..]);
      CutLosesOnlySpace(space, rest, boundary, piece, tail);
      CutPiece(space, capacity, block, pieces, rest, piece, tail);
      pieces := pieces + [piece];
      rest := tail;
    }
    if rest != "" {
      AddPiece(space, capacity, pieces, rest);
      pieces := pieces + [rest];
    }
  }

  lemma CutLosesOnlySpace(space: Space, s: string, at: nat, piece: string, tail: string)
    requires Tight(space, s) && 0 < at < |s|
    requires piece == Strip(space, s[..at]) && tail == Strip(space, s[at..])
    ensures
      && Erase(space, piece) + Erase(space, tail) == Erase(space, s)
      && piece != "" && |piece| <= at && Tight(space, piece)
      && |tail| < |s| && Tight(space, tail)
  {
    StripLosesOnlySpace(space, s[..at]);
    StripLosesOnlySpace(space, s[at..]);
    assert s == s[..at] + s[at..];
    EraseAppend(space, s[..at], s[at..]);
    assert !space(s[..at][0]);
  }

  function SplitAll(space: Space, capacity: nat, blocks: seq<string>): seq<string>
    requires capacity >= 1
  {
    if blocks == [] then []
    else SplitAll(space, capacity, blocks[..|blocks| - 1]) + SplitOf(space, capacity, blocks[|blocks| - 1])
  }

  lemma NextBlock(space: Space, capacity: nat, blocks: seq<string>, k: nat, pieces: seq<string>, more: seq<string>)
    requires capacity >= 1 && k < |blocks|
    requires pieces == SplitAll(space, capacity, blocks[..k]) && more == SplitOf(space, capacity, blocks[k])
    requires EraseAll(space, pieces) == EraseAll(space, blocks[..k]) && EraseAll(space, more) == Erase(space, blocks[k])
    ensures pieces + more == SplitAll(space, capacity, blocks[..k + 1])
    ensures EraseAll(space, pieces + more) == EraseAll(space, blocks[..k + 1])
  {
    EraseAllAppend(space, pieces, more);
    assert blocks[..k + 1][..k] == blocks[..k];
  }

  method SplitBlocks(space: Space, capacity: nat, blocks: seq<string>) returns (pieces: seq<string>)
    requires capacity >= 1 && forall i :: 0 <= i < |blocks| ==> Tight(space, blocks[i])
    ensures pieces == SplitAll(space, capacity, blocks)
    ensures Fits(space, capacity, pieces)
    ensures EraseAll(space, pieces) == EraseAll(space, blocks)
  {
    pieces := [];
    assert blocks[..0] == [];
    var k := 0;
    while k < |blocks|
      invariant 0 <= k <= |blocks| && Fits(space, capacity, pieces)
      invariant pieces == SplitAll(space, capacity, blocks[..k])
      invariant EraseAll(space, pieces) == EraseAll(space, blocks[..k])
    {
      var more := SplitBlock(space, capacity, blocks[k]);
      NextBlock(space, capacity, blocks, k, pieces, more);
      pieces := pieces + more;
      k := k + 1;
    }
    assert blocks[..k] == blocks;
  }

  // ----- packing pieces

  /** The pieces of a chunk, a space between each two. */
  function Joined(group: seq<string>): string {
    if group == [] then ""
    else if |group| == 1 then group[0]
    else Joined(group[..|group| - 1]) + " " + group[|group| - 1]
  }

  function Flat(groups: seq<seq<string>>): seq<string> {
    if groups == [] then [] else Flat(groups[..|groups| - 1]) + groups[|groups| - 1]
  }

  /**
   * A chunk is full at the minimum, except that the piece which did not fit into the chunk before is
   * never closed on its own at once.
   */
  predicate Full(least: nat, group: seq<string>, late: bool) {
    |Joined(group)| >= least && !(late && |group| == 1)
  }

  /** Whether chunk `i` was opened by a piece that did not fit into the one before. */
  predicate Late(least: nat, groups: seq<seq<string>>, i: nat)
    requires i <= |groups|
    decreases i
  {
    i > 0 && !Full(least, groups[i - 1], Late(least, groups, i - 1))
  }

  predicate FitsNext(capacity: nat, group: seq<string>, piece: string) {
    group == [] || |Joined(group)| + 1 + |piece| <= capacity
  }

  /** Within the limit, and not full before its last piece. */
  ghost predicate GroupFits(least: nat, capacity: nat, group: seq<string>, late: bool) {
    && group != [] && |Joined(group)| <= capacity
    && forall j :: 0 < j < |group| ==> !Full(least, group[..j], late)
  }

  /** What one greedy pass makes of the pieces: a chunk ends when it is full or the next piece does not fit. */
  ghost predicate Packed(least: nat, capacity: nat, pieces: seq<string>, groups: seq<seq<string>>) {
    Flat(groups) == pieces && forall i :: 0 <= i < |groups| ==> ChunkOk(least, capacity, groups, i)
  }

  /** Chunk `i` fits, was not full early, and if it was opened late its first piece did not fit before. */
  ghost predicate ChunkOk(least: nat, capacity: nat, groups: seq<seq<string>>, i: nat)
    requires i < |groups|
  {
    var late := Late(least, groups, i);
    && GroupFits(least, capacity, groups[i], late)
    && (i > 0 && late ==> !FitsNext(capacity, groups[i - 1], groups[i][0]))
  }

  function Prefix(section: string): string {
    "[Section: " + section + "] "
  }

  ghost predicate ChunksOf(section: string, groups: seq<seq<string>>, chunks: seq<Chunk>) {
    |chunks| == |groups| &&
    forall i :: 0 <= i < |chunks| ==>
      chunks[i] == Chunk(section, i, Prefix(section) + Joined(groups[i]), |Joined(groups[i])|)
  }

  // ----- the pass

  /** Closed chunks, and the pieces of the chunk being filled. */
  ghost predicate Packing(least: nat, capacity: nat, pieces: seq<string>, groups: seq<seq<string>>, open: seq<string>) {
    var late := Late(least, groups, |groups|);
    && Packed(least, capacity, Flat(groups), groups)
    && Flat(groups) + open == pieces
    && (open == [] ==> !late)
    && (open != [] ==> GroupFits(least, capacity, open, late) && !Full(least, open, late))
    && (open != [] && late ==> !FitsNext(capacity, groups[|groups| - 1], open[0]))
  }

  lemma {:induction false} LateStays(least: nat, groups: seq<seq<string>>, group: seq<string>, i: nat)
    requires i <= |groups|
    ensures Late(least, groups + [group], i) == Late(least, groups, i)
  {
    if i > 0 {
      LateStays(least, groups, group, i - 1);
    }
  }

  lemma FlatNext(groups: seq<seq<string>>, group: seq<string>)
    ensures Flat(groups + [group]) == Flat(groups) + group
  {
    assert (groups + [group])[..|groups|] == groups;
  }

  lemma CloseGroup(least: nat, capacity: nat, groups: seq<seq<string>>, group: seq<string>)
    requires Packed(least, capacity, Flat(groups), groups)
    requires GroupFits(least, capacity, group, Late(least, groups, |groups|))
    requires Late(least, groups, |groups|) ==> !FitsNext(capacity, groups[|groups| - 1], group[0])
    ensures Packed(least, capacity, Flat(groups) + group, groups + [group])
  {
    FlatNext(groups, group);
    var more := groups + [group];
    forall i | 0 <= i < |more| ensures ChunkOk(least, capacity, more, i) {
      LateStays(least, groups, group, i);
      if i < |groups| {
        assert ChunkOk(least, capacity, groups, i);
      }
    }
  }

  lemma JoinedNext(group: seq<string>, piece: string)
    ensures |Joined(group + [piece])| == if group == [] then |piece| else |Joined(group)| + 1 + |piece|
    ensures Joined(group + [piece]) == if group == [] then piece else Joined(group) + " " + piece
  {
    assert (group + [piece])[..|group|] == group;
  }

  lemma JoinedPrefixes(least: nat, group: seq<string>, piece: string, late: bool)
    requires group != [] ==> !Full(least, group, late)
    requires forall j :: 0 < j < |group| ==> !Full(least, group[..j], late)
    ensures forall j :: 0 < j < |group + [piece]| ==> !Full(least, (group + [piece])[..j], late)
  {
    forall j | 0 < j < |group + [piece]| ensures !Full(least, (group + [piece])[..j], late) {
      assert (group + [piece])[..j] == group[..j];
      assert group[..|group|] == group;
    }
  }

  /** The piece does not fit: the open chunk is closed and the piece opens the next one, late. */
  lemma Overflow(least: nat, capacity: nat, pieces: seq<string>, groups: seq<seq<string>>, open: seq<string>, piece: string)
    requires Packing(least, capacity, pieces, groups, open) && open != []
    requires |piece| <= capacity && !FitsNext(capacity, open, piece)
    ensures Packing(least, capacity, pieces + [piece], groups + [open], [piece])
  {
    CloseGroup(least, capacity, groups, open);
    FlatNext(groups, open);
    LateStays(least, groups, open, |groups|);
    assert Late(least, groups + [open], |groups| + 1);
  }

  /** The piece fits and fills the open chunk. */
  lemma Fill(least: nat, capacity: nat, pieces: seq<string>, groups: seq<seq<string>>, open: seq<string>, piece: string)
    requires Packing(least, capacity, pieces, groups, open)
    requires |Joined(open + [piece])| <= capacity && |Joined(open + [piece])| >= least
    ensures Packing(least, capacity, pieces + [piece], groups + [open + [piece]], [])
  {
    var late := Late(least, groups, |groups|);
    var group := open + [piece];
    JoinedPrefixes(least, open, piece, late);
    CloseGroup(least, capacity, groups, group);
    FlatNext(groups, group);
    LateStays(least, groups, group, |groups|);
    assert Full(least, group, late);
    assert Flat(groups) + group + [] == Flat(groups) + open + [piece];
  }

  /** The piece fits and leaves the open chunk below the minimum. */
  lemma Extend(least: nat, capacity: nat, pieces: seq<string>, groups: seq<seq<string>>, open: seq<string>, piece: string)
    requires Packing(least, capacity, pieces, groups, open)
    requires |Joined(open + [piece])| <= capacity && |Joined(open + [piece])| < least
    ensures Packing(least, capacity, pieces + [piece], groups, open + [piece])
  {
    JoinedPrefixes(least, open, piece, Late(least, groups, |groups|));
    assert Flat(groups) + (open + [piece]) == Flat(groups) + open + [piece];
  }

  /** At the end, what is open becomes the last chunk. */
  lemma Finish(least: nat, capacity: nat, pieces: seq<string>, groups: seq<seq<string>>, open: seq<string>)
    requires Packing(least, capacity, pieces, groups, open)
    ensures Packed(least, capacity, pieces, if open == [] then groups else groups + [open])
  {
    if open != [] {
      CloseGroup(least, capacity, groups, open);
    } else {
      assert Flat(groups) + open == Flat(groups);
    }
  }

  /** `pending` is the open chunk's text; it is tight, so joining needs no stripping. */
  ghost predicate Pending(space: Space, open: seq<string>, pending: string) {
    pending == Joined(open) && Tight(space, pending) && (pending == "" <==> open == [])
  }

  lemma PendingNext(space: Space, open: seq<string>, pending: string, piece: string, joined: string)
    requires Pending(space, open, pending) && piece != "" && Tight(space, piece)
    requires joined == if pending != "" then Strip(space, pending + " " + piece) else piece
    ensures Pending(space, open + [piece], joined)
  {
    JoinedNext(open, piece);
    if pending != "" {
      var text := pending + " " + piece;
      assert text[0] == pending[0] && text[|text| - 1] == piece[|piece| - 1];
    }
  }

  lemma NothingPacked(least: nat, capacity: nat)
    ensures Packing(least, capacity, [], [], [])
  {
    assert Flat([]) == [];
  }

  lemma ChunksNext(section: string, groups: seq<seq<string>>, chunks: seq<Chunk>, group: seq<string>, text: string)
    requires ChunksOf(section, groups, chunks) && text == Joined(group)
    ensures ChunksOf(section, groups + [group], chunks + [Chunk(section, |chunks|, Prefix(section) + text, |text|)])
  {
  }

  /** One piece: it closes the open chunk, fills it, or stays in it. */
  method PackPiece(space: Space, section: string, least: nat, capacity: nat, chunks: seq<Chunk>, pending: string, piece: string,
                   ghost pieces: seq<string>, ghost groups: seq<seq<string>>, ghost open: seq<string>)
    returns (more: seq<Chunk>, next: string, ghost closed: seq<seq<string>>, ghost left: seq<string>)
    requires piece != "" && |piece| <= capacity && Tight(space, piece)
    requires ChunksOf(section, groups, chunks) && Packing(least, capacity, pieces, groups, open) && Pending(space, open, pending)
    ensures ChunksOf(section, closed, more)
    ensures Packing(least, capacity, pieces + [piece], closed, left) && Pending(space, left, next)
  {
    var joined := if pending != "" then Strip(space, pending + " " + piece) else piece;
    PendingNext(space, open, pending, piece, joined);
    JoinedNext(open, piece);
    if |joined| > capacity {
      Overflow(least, capacity, pieces, groups, open, piece);
      ChunksNext(section, groups, chunks, open, pending);
      more := chunks + [Chunk(section, |chunks|, Prefix(section) + pending, |pending|)];
      next := piece;
      closed, left := groups + [open], [piece];
    } else if |joined| >= least {
      Fill(least, capacity, pieces, groups, open, piece);
      ChunksNext(section, groups, chunks, open + [piece], joined);
      more := chunks + [Chunk(section, |chunks|, Prefix(section) + joined, |joined|)];
      next := "";
      closed, left := groups + [open + [piece]], [];
    } else {
      Extend(least, capacity, pieces, groups, open, piece);
      more, next, closed, left := chunks, joined, groups, open + [piece];
    }
  }

  /** Chunks made of the pieces by one greedy pass; there is only one such list. */
  ghost predicate PackedChunks(section: string, least: nat, capacity: nat, pieces: seq<string>, chunks: seq<Chunk>) {
    exists groups :: Packed(least, capacity, pieces, groups) && ChunksOf(section, groups, chunks)
  }

  method Pack(space: Space, section: string, least: nat, capacity: nat, pieces: seq<string>) returns (chunks: seq<Chunk>)
    requires Fits(space, capacity, pieces)
    ensures PackedChunks(section, least, capacity, pieces, chunks)
  {
    chunks := [];
    var pending := "";
    ghost var groups: seq<seq<string>>, open: seq<string> := [], [];
    NothingPacked(least, capacity);
    assert pieces[..0] == [];
    var k := 0;
    while k < |pieces|
      invariant 0 <= k <= |pieces| && ChunksOf(section, groups, chunks)
      invariant Packing(least, capacity, pieces[..k], groups, open) && Pending(space, open, pending)
    {
      assert pieces[..k + 1] == pieces[..k] + [pieces[k]];
      chunks, pending, groups, open :=
        PackPiece(space, section, least, capacity, chunks, pending, pieces[k], pieces[..k], groups, open);
      k := k + 1;
    }
    assert pieces[..k] == pieces;
    Finish(least, capacity, pieces, groups, open);
    if pending != "" {
      ChunksNext(section, groups, chunks, open, pending);
      chunks := chunks + [Chunk(section, |chunks|, Prefix(section) + pending, |pending|)];
      groups := groups + [open];
    }
    assert Packed(least, capacity, pieces, groups) && ChunksOf(section, groups, chunks);
  }

  // ----- the section

  /** Blocks as the structural split leaves them: stripped, and longer than five characters. */
  function CleanBlocks(space: Space, raw: seq<string>): seq<string> {
    if raw == [] then []
    else
      var before, block := CleanBlocks(space, raw[..|raw| - 1]), Strip(space, raw[|raw| - 1]);
      if |block| > 5 then before + [block] else before
  }

  lemma {:induction false} BlocksAreTight(space: Space, raw: seq<string>)
    ensures forall i :: 0 <= i < |CleanBlocks(space, raw)| ==> Tight(space, CleanBlocks(space, raw)[i])
  {
    if raw != [] {
      BlocksAreTight(space, raw[..|raw| - 1]);
      StripLosesOnlySpace(space, raw[|raw| - 1]);
    }
  }

  /** Taken from these places, in order, and each stripped of the whitespace around it. */
  ghost predicate StrippedFrom(space: Space, raw: seq<string>, blocks: seq<string>, places: seq<nat>) {
    && |places| == |blocks|
    && (forall k :: 0 <= k < |places| ==> places[k] < |raw| && Stripped(space, raw[places[k]], blocks[k]))
    && (forall j, k :: 0 <= j < k < |places| ==> places[j] < places[k])
  }

  /** The text without all its leading and trailing whitespace. */
  ghost predicate Stripped(space: Space, s: string, t: string) {
    (t != "" ==> !space(t[0]) && !space(t[|t| - 1])) && exists lo: nat, hi: nat :: CutTo(space, s, t, lo, hi)
  }

  ghost predicate CutTo(space: Space, s: string, t: string, lo: nat, hi: nat) {
    && lo <= hi <= |s| && t == s[lo..hi]
    && (forall i :: 0 <= i < lo ==> space(s[i])) && (forall i :: hi <= i < |s| ==> space(s[i]))
  }

  lemma {:induction false} StripStrips(space: Space, s: string)
    ensures Stripped(space, s, Strip(space, s))
    decreases |s|
  {
    var t := Strip(space, s);
    if s == "" {
      assert CutTo(space, s, t, 0, 0);
    } else if space(s[0]) {
      StripStrips(space, s[1..]);
      var lo: nat, hi: nat :| CutTo(space, s[1..], t, lo, hi);
      CutAfterFirst(space, s, t, lo, hi);
    } else if space(s[|s| - 1]) {
      StripStrips(space, s[..|s| - 1]);
      var lo: nat, hi: nat :| CutTo(space, s[..|s| - 1], t, lo, hi);
      CutBeforeLast(space, s, t, lo, hi);
    } else {
      assert CutTo(space, s, t, 0, |s|);
    }
  }

  lemma CutAfterFirst(space: Space, s: string, t: string, lo: nat, hi: nat)
    requires s != "" && space(s[0]) && CutTo(space, s[1..], t, lo, hi)
    ensures CutTo(space, s, t, lo + 1, hi + 1)
  {
    forall i | 0 < i < |s| ensures s[i] == s[1..][i - 1] {
    }
  }

  lemma CutBeforeLast(space: Space, s: string, t: string, lo: nat, hi: nat)
    requires s != "" && space(s[|s| - 1]) && CutTo(space, s[..|s| - 1], t, lo, hi)
    ensures CutTo(space, s, t, lo, hi)
  {
    forall i | 0 <= i < |s| - 1 ensures s[i] == s[..|s| - 1][i] {
    }
  }

  /** Exactly the texts longer than five characters once stripped, in order. */
  ghost predicate LongAt(space: Space, raw: seq<string>, blocks: seq<string>, places: seq<nat>) {
    && |places| == |blocks|
    && (forall k :: 0 <= k < |places| ==> places[k] < |raw| && blocks[k] == Strip(space, raw[places[k]]))
    && (forall j, k :: 0 <= j < k < |places| ==> places[j] < places[k])
    && (forall i: nat :: i < |raw| ==> (i in places <==> |Strip(space, raw[i])| > 5))
  }

  lemma LongNext(space: Space, raw: seq<string>, blocks: seq<string>, places: seq<nat>, more: string)
    requires LongAt(space, raw, blocks, places)
    ensures |Strip(space, more)| > 5 ==> LongAt(space, raw + [more], blocks + [Strip(space, more)], places + [|raw|])
    ensures |Strip(space, more)| <= 5 ==> LongAt(space, raw + [more], blocks, places)
  {
    assert |raw| !in places;
  }

  lemma {:induction false} PlacesOfBlocks(space: Space, raw: seq<string>) returns (places: seq<nat>)
    ensures LongAt(space, raw, CleanBlocks(space, raw), places)
  {
    if raw == [] {
      places := [];
    } else {
      var n: nat := |raw| - 1;
      places := PlacesOfBlocks(space, raw[..n]);
      LongNext(space, raw[..n], CleanBlocks(space, raw[..n]), places, raw[n]);
      assert raw == raw[..n] + [raw[n]];
      if |Strip(space, raw[n])| > 5 {
        places := places + [n];
      }
    }
  }

  /** Blocks of six characters and more are kept, shorter ones are dropped. */
  lemma CleanBlocksAre(space: Space, raw: seq<string>) returns (places: seq<nat>)
    ensures StrippedFrom(space, raw, CleanBlocks(space, raw), places)
    ensures forall k :: 0 <= k < |places| ==> |CleanBlocks(space, raw)[k]| >= 6
    ensures forall i: nat, t :: i < |raw| && i !in places && Stripped(space, raw[i], t) ==> |t| <= 5
  {
    places := PlacesOfBlocks(space, raw);
    forall k | 0 <= k < |places|
      ensures Stripped(space, raw[places[k]], CleanBlocks(space, raw)[k]) && |CleanBlocks(space, raw)[k]| >= 6
    {
      StripStrips(space, raw[places[k]]);
      assert places[k] in places;
    }
    forall i: nat, t | i < |raw| && i !in places && Stripped(space, raw[i], t) ensures |t| <= 5 {
      StripStrips(space, raw[i]);
      OneStripping(space, raw[i], t, Strip(space, raw[i]));
    }
  }

  /** A text can be stripped in one way only. */
  lemma OneStripping(space: Space, s: string, t: string, u: string)
    requires Stripped(space, s, t) && Stripped(space, s, u)
    ensures t == u
  {
    var lo: nat, hi: nat :| CutTo(space, s, t, lo, hi);
    var lo': nat, hi': nat :| CutTo(space, s, u, lo', hi');
    if t != "" {
      assert t[0] == s[lo] && t[|t| - 1] == s[hi - 1];
    }
    if u != "" {
      assert u[0] == s[lo'] && u[|u| - 1] == s[hi' - 1];
    }
  }

  /** The text of a chunk without its section prefix. */
  function Body(chunk: Chunk): string {
    var p := Prefix(chunk.section);
    if p <= chunk.text then chunk.text[|p|..] else chunk.text
  }

  /** A chunk opens with the name of its section. */
  lemma ChunkText(most: nat, section: string, chunks: seq<Chunk>, i: nat)
    requires Bounded(most, section, chunks) && i < |chunks|
    ensures chunks[i].text == "[Section: " + section + "] " + Body(chunks[i])
  {
  }

  function Bodies(chunks: seq<Chunk>): seq<string> {
    Map(chunks, (c: Chunk) => Body(c))
  }

  ghost predicate Bounded(most: nat, section: string, chunks: seq<Chunk>) {
    forall i :: 0 <= i < |chunks| ==>
      var c := chunks[i];
      && c.section == section && c.index == i && |c.text| <= most
      && Body(c) != "" && |Body(c)| == c.length && c.text == Prefix(section) + Body(c)
  }

  lemma ChunkBody(section: string, groups: seq<seq<string>>, chunks: seq<Chunk>, i: nat)
    requires ChunksOf(section, groups, chunks) && i < |chunks|
    ensures Body(chunks[i]) == Joined(groups[i])
  {
    var p := Prefix(section);
    assert (p + Joined(groups[i]))[..|p|] == p;
    assert p <= p + Joined(groups[i]);
  }

  lemma SpacedErased(space: Space, a: string, b: string)
    requires space(' ')
    ensures Erase(space, a + " " + b) == Erase(space, a) + Erase(space, b)
  {
    EraseAppend(space, a + " ", b);
    EraseAppend(space, a, " ");
    EraseSpace(space, " ");
    assert Erase(space, a) + "" == Erase(space, a);
  }

  lemma {:induction false} JoinedErased(space: Space, group: seq<string>)
    requires space(' ')
    ensures Erase(space, Joined(group)) == EraseAll(space, group)
  {
    if group == [] {
      assert Erase(space, "") == "";
    } else if |group| == 1 {
      EraseOne(space, group[0]);
      assert group == [group[0]];
    } else {
      var n := |group| - 1;
      JoinedErased(space, group[..n]);
      SpacedErased(space, Joined(group[..n]), group[n]);
    }
  }

  lemma {:induction false} BodiesErased(space: Space, groups: seq<seq<string>>, bodies: seq<string>)
    requires space(' ') && |bodies| == |groups|
    requires forall i :: 0 <= i < |groups| ==> bodies[i] == Joined(groups[i])
    ensures EraseAll(space, bodies) == EraseAll(space, Flat(groups))
  {
    if groups == [] {
    } else {
      var n := |groups| - 1;
      BodiesErased(space, groups[..n], bodies[..n]);
      JoinedErased(space, groups[n]);
      EraseAllAppend(space, Flat(groups[..n]), groups[n]);
    }
  }

  /** Nothing but whitespace is lost, and every chunk fits its bounds. */
  lemma PackedIsLossless(space: Space, section: string, least: nat, most: nat, pieces: seq<string>,
                         groups: seq<seq<string>>, chunks: seq<Chunk>)
    requires space(' ') && |Prefix(section)| < most && least >= 1
    requires Fits(space, most - |Prefix(section)|, pieces)
    requires Packed(least, most - |Prefix(section)|, pieces, groups) && ChunksOf(section, groups, chunks)
    ensures Bounded(most, section, chunks)
    ensures EraseAll(space, Bodies(chunks)) == EraseAll(space, pieces)
  {
    forall i | 0 <= i < |chunks|
      ensures Body(chunks[i]) == Joined(groups[i]) && 0 < |Joined(groups[i])| <= most - |Prefix(section)|
    {
      PackedBody(space, section, least, most - |Prefix(section)|, pieces, groups, chunks, i);
    }
    BodiesErased(space, groups, Bodies(chunks));
  }

  lemma PackedBody(space: Space, section: string, least: nat, capacity: nat, pieces: seq<string>,
                   groups: seq<seq<string>>, chunks: seq<Chunk>, i: nat)
    requires Fits(space, capacity, pieces) && Packed(least, capacity, pieces, groups)
    requires ChunksOf(section, groups, chunks) && i < |chunks|
    ensures Body(chunks[i]) == Joined(groups[i]) && 0 < |Joined(groups[i])| <= capacity
  {
    ChunkBody(section, groups, chunks, i);
    assert ChunkOk(least, capacity, groups, i);
    JoinedNonempty(space, capacity, pieces, groups, i);
  }

  lemma {:induction false} FlatHas(groups: seq<seq<string>>, i: nat, j: nat)
    requires i < |groups| && j < |groups[i]|
    ensures groups[i][j] in Flat(groups)
  {
    var n := |groups| - 1;
    if i < n {
      FlatHas(groups[..n], i, j);
    }
  }

  lemma JoinedNonempty(space: Space, capacity: nat, pieces: seq<string>, groups: seq<seq<string>>, i: nat)
    requires Fits(space, capacity, pieces) && Flat(groups) == pieces && i < |groups| && groups[i] != []
    ensures Joined(groups[i]) != ""
  {
    FlatHas(groups, i, 0);
  }

  method ChunkSectionStructurally(space: Space, section: string, raw: seq<string>, least: int, most: int) returns (r: Result)
    requires space(' ')
    ensures r.InvalidBounds? <==> least < 1 || most <= |Prefix(section)| || least > most
    ensures r.Chunks? ==> Bounded(most, section, r.chunks)
    ensures r.Chunks? ==> EraseAll(space, Bodies(r.chunks)) == EraseAll(space, CleanBlocks(space, raw))
    ensures r.Chunks? ==>
      var capacity := most - |Prefix(section)|;
      PackedChunks(section, least, capacity, SplitAll(space, capacity, CleanBlocks(space, raw)), r.chunks)
  {
    if least < 1 || most <= |Prefix(section)| || least > most {
      return InvalidBounds;
    }
    var capacity := most - |Prefix(section)|;
    var blocks := CleanBlocks(space, raw);
    BlocksAreTight(space, raw);
    var pieces := SplitBlocks(space, capacity, blocks);
    var chunks := Pack(space, section, least, capacity, pieces);
    ghost var groups :| Packed(least, capacity, pieces, groups) && ChunksOf(section, groups, chunks);
    PackedIsLossless(space, section, least, most, pieces, groups, chunks);
    r := Chunks(chunks);
  }

  /** A chunk that others follow is below the minimum only when the next piece would not have fitted. */
  lemma ShortOnlyWhenForced(section: string, least: nat, most: nat, pieces: seq<string>,
                            groups: seq<seq<string>>, chunks: seq<Chunk>, i: nat)
    requires |Prefix(section)| < most
    requires Packed(least, most - |Prefix(section)|, pieces, groups) && ChunksOf(section, groups, chunks)
    requires i + 1 < |chunks| && chunks[i].length < least
    ensures groups[i + 1] != [] && |chunks[i].text| + 1 + |groups[i + 1][0]| > most
  {
    assert ChunkOk(least, most - |Prefix(section)|, groups, i + 1);
    assert Late(least, groups, i + 1);
  }

  // ----- the packing is determined

  lemma {:induction false} FlatAt(groups: seq<seq<string>>, n: nat)
    requires n < |groups|
    ensures Flat(groups) == Flat(groups[..n]) + groups[n] + Flat(groups[n + 1..])
  {
    var m := |groups| - 1;
    if n < m {
      FlatAt(groups[..m], n);
      assert groups[..m][..n] == groups[..n] && groups[..m][n + 1..] == groups[n + 1..m];
      assert groups[n + 1..][..m - n - 1] == groups[n + 1..m];
    } else {
      assert groups[n + 1..] == [];
    }
  }

  lemma {:induction false} LatePrefix(least: nat, a: seq<seq<string>>, b: seq<seq<string>>, n: nat)
    requires n <= |a| && n <= |b| && a[..n] == b[..n]
    ensures Late(least, a, n) == Late(least, b, n)
  {
    if n > 0 {
      assert a[..n][..n - 1] == a[..n - 1] && b[..n][..n - 1] == b[..n - 1];
      assert a[..n][n - 1] == b[..n][n - 1];
      LatePrefix(least, a, b, n - 1);
    }
  }

  lemma {:induction false} JoinedGrows(group: seq<string>, n: nat)
    requires n <= |group|
    ensures |Joined(group[..n])| <= |Joined(group)|
  {
    if n < |group| {
      var m := |group| - 1;
      JoinedGrows(group[..m], n);
      assert group[..m][..n] == group[..n];
      JoinedNext(group[..m], group[m]);
      assert group == group[..m] + [group[m]];
    } else {
      assert group[..n] == group;
    }
  }

  /** The next piece after a chunk opens the chunk that follows it. */
  lemma NextPiece(groups: seq<seq<string>>, n: nat, pieces: seq<string>)
    requires n < |groups| && Flat(groups) == pieces && (forall i :: 0 <= i < |groups| ==> groups[i] != [])
    ensures var end := |Flat(groups[..n])| + |groups[n]|;
      && end <= |pieces| && pieces[|Flat(groups[..n])|..end] == groups[n]
      && (end < |pieces| <==> n + 1 < |groups|)
      && (end < |pieces| ==> groups[n + 1][0] == pieces[end])
  {
    FlatAt(groups, n);
    var rest := groups[n + 1..];
    if rest != [] {
      FlatAt(rest, 0);
      assert rest[..0] == [] && Flat(rest[..0]) == [];
      assert rest[0] == groups[n + 1];
    } else {
      assert Flat(rest) == [];
    }
  }

  /** The pieces from `start` to `stop` make a chunk that had to end there. */
  ghost predicate EndsAt(least: nat, capacity: nat, pieces: seq<string>, start: nat, stop: nat, late: bool) {
    && start < stop <= |pieces| && GroupFits(least, capacity, pieces[start..stop], late)
    && (stop < |pieces| && !Full(least, pieces[start..stop], late) ==>
          !FitsNext(capacity, pieces[start..stop], pieces[stop]))
  }

  lemma GroupsNonempty(least: nat, capacity: nat, pieces: seq<string>, a: seq<seq<string>>)
    requires Packed(least, capacity, pieces, a)
    ensures forall i :: 0 <= i < |a| ==> a[i] != []
  {
    forall i | 0 <= i < |a| ensures a[i] != [] {
      assert ChunkOk(least, capacity, a, i);
    }
  }

  lemma GroupEnds(least: nat, capacity: nat, pieces: seq<string>, a: seq<seq<string>>, n: nat, start: nat, late: bool)
    returns (stop: nat)
    requires Packed(least, capacity, pieces, a) && n < |a| && start == |Flat(a[..n])| && late == Late(least, a, n)
    ensures EndsAt(least, capacity, pieces, start, stop, late)
    ensures a[n] == pieces[start..stop]
  {
    stop := start + |a[n]|;
    GroupsNonempty(least, capacity, pieces, a);
    NextPiece(a, n, pieces);
    assert ChunkOk(least, capacity, a, n);
    if n + 1 < |a| && ChunkOk(least, capacity, a, n + 1) && !Full(least, a[n], Late(least, a, n)) {
      assert Late(least, a, n + 1);
    }
  }

  /** A chunk cannot have two ends: at the earlier one it was not full and the next piece fitted. */
  lemma OneEnd(least: nat, capacity: nat, pieces: seq<string>, start: nat, stop: nat, later: nat, late: bool)
    requires EndsAt(least, capacity, pieces, start, later, late) && start < stop < later
    ensures !EndsAt(least, capacity, pieces, start, stop, late)
  {
    var x, y := pieces[start..stop], pieces[start..later];
    assert y[..|x|] == x;
    assert !Full(least, y[..|x|], late);
    JoinedGrows(y, |x| + 1);
    assert y[..|x| + 1] == x + [pieces[stop]];
    JoinedNext(x, pieces[stop]);
  }

  lemma EndIsUnique(least: nat, capacity: nat, pieces: seq<string>, start: nat, p: nat, q: nat, late: bool)
    requires EndsAt(least, capacity, pieces, start, p, late) && EndsAt(least, capacity, pieces, start, q, late)
    ensures p == q
  {
    if p < q {
      OneEnd(least, capacity, pieces, start, p, q, late);
    } else if q < p {
      OneEnd(least, capacity, pieces, start, q, p, late);
    }
  }

  lemma SameGroup(least: nat, capacity: nat, pieces: seq<string>, a: seq<seq<string>>, b: seq<seq<string>>, n: nat)
    requires Packed(least, capacity, pieces, a) && Packed(least, capacity, pieces, b)
    requires n < |a| && n < |b| && a[..n] == b[..n]
    ensures a[n] == b[n]
  {
    LatePrefix(least, a, b, n);
    SameFlat(a[..n], b[..n]);
    EqualGroups(least, capacity, pieces, a, b, n, |Flat(a[..n])|, Late(least, a, n));
  }

  lemma EqualGroups(least: nat, capacity: nat, pieces: seq<string>, a: seq<seq<string>>, b: seq<seq<string>>,
                    n: nat, start: nat, late: bool)
    requires Packed(least, capacity, pieces, a) && Packed(least, capacity, pieces, b) && n < |a| && n < |b|
    requires start == |Flat(a[..n])| == |Flat(b[..n])| && late == Late(least, a, n) == Late(least, b, n)
    ensures a[n] == b[n]
  {
    var p := GroupEnds(least, capacity, pieces, a, n, start, late);
    var q := GroupEnds(least, capacity, pieces, b, n, start, late);
    EndIsUnique(least, capacity, pieces, start, p, q, late);
  }

  lemma SameFlat(a: seq<seq<string>>, b: seq<seq<string>>)
    requires a == b
    ensures Flat(a) == Flat(b)
  {
  }

  lemma {:induction false} SamePrefix(least: nat, capacity: nat, pieces: seq<string>, a: seq<seq<string>>, b: seq<seq<string>>, n: nat)
    requires Packed(least, capacity, pieces, a) && Packed(least, capacity, pieces, b)
    requires n <= |a| && n <= |b|
    ensures a[..n] == b[..n]
  {
    if n > 0 {
      SamePrefix(least, capacity, pieces, a, b, n - 1);
      SameGroup(least, capacity, pieces, a, b, n - 1);
      assert a[..n] == a[..n - 1] + [a[n - 1]] && b[..n] == b[..n - 1] + [b[n - 1]];
    }
  }

  lemma SameLength(least: nat, capacity: nat, pieces: seq<string>, a: seq<seq<string>>, b: seq<seq<string>>)
    requires Packed(least, capacity, pieces, a) && Packed(least, capacity, pieces, b)
    ensures |a| <= |b|
  {
    var n := Min(|a|, |b|);
    if n > 0 {
      SamePrefix(least, capacity, pieces, a, b, n);
      GroupsNonempty(least, capacity, pieces, a);
      GroupsNonempty(least, capacity, pieces, b);
      NextPiece(a, n - 1, pieces);
      NextPiece(b, n - 1, pieces);
      assert a[..n][n - 1] == b[..n][n - 1] && a[..n - 1] == a[..n][..n - 1] && b[..n - 1] == b[..n][..n - 1];
    } else {
      EmptyPacking(least, capacity, pieces, a);
      EmptyPacking(least, capacity, pieces, b);
    }
  }

  /** Two packings of the same pieces are the same: the rule fixes every chunk. */
  lemma PackingIsUnique(least: nat, capacity: nat, pieces: seq<string>, a: seq<seq<string>>, b: seq<seq<string>>)
    requires Packed(least, capacity, pieces, a) && Packed(least, capacity, pieces, b)
    ensures a == b
  {
    SameLength(least, capacity, pieces, a, b);
    SameLength(least, capacity, pieces, b, a);
    SamePrefix(least, capacity, pieces, a, b, |a|);
    assert a[..|a|] == a && b[..|a|] == b;
  }

  lemma EmptyPacking(least: nat, capacity: nat, pieces: seq<string>, a: seq<seq<string>>)
    requires Packed(least, capacity, pieces, a)
    ensures a == [] <==> pieces == []
  {
    if a != [] {
      GroupsNonempty(least, capacity, pieces, a);
      FlatAt(a, 0);
    }
  }
}
