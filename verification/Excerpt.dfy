/**
 * When a claim counts as an excerpt of its source: it must occur there on word boundaries, and some
 * occurrence must keep every limiting term ("no", "basic", "assisted", ...) of each sentence it touches.
 */
module Excerpt {
  import opened Prelude

  datatype Span = Span(start: nat, stop: nat)

  /**
   * Text operations left abstract: whitespace and case normalisation, the presence of a word
   * character, whole-word occurrences, the gaps between sentences, the sets of limiting terms and of numbers
   * in a text, and the scan for injected instructions.
   */
  datatype Lexicon = Lexicon(
    normal: string -> string,
    blank: string -> bool,
    wordy: string -> bool,
    matches: (string, string) -> seq<Span>,
    gaps: string -> seq<Span>,
    limits: string -> set<string>,
    numbers: string -> set<string>,
    suspicious: string -> bool)

  ghost predicate SpansWithin(spans: seq<Span>, n: nat) {
    forall i :: 0 <= i < |spans| ==> spans[i].start <= spans[i].stop <= n
  }

  ghost predicate Apart(spans: seq<Span>) {
    forall i, j :: 0 <= i < j < |spans| ==> spans[i].stop <= spans[j].start
  }

  ghost predicate Lawful(lex: Lexicon) {
    && !lex.wordy("")
    && (forall t :: lex.wordy(lex.normal(t)) ==> !lex.blank(t))
    && (forall c, s :: SpansWithin(lex.matches(c, s), |s|))
    && (forall s :: SpansWithin(lex.gaps(s), |s|) && Apart(lex.gaps(s)))
  }

  // ----- sentences of a text

  /** The sentences lie between the gaps. */
  function Sentence(gaps: seq<Span>, n: nat, i: nat): Span
    requires i <= |gaps|
  {
    Span(if i == 0 then 0 else gaps[i - 1].stop, if i == |gaps| then n else gaps[i].start)
  }

  predicate Touches(sentence: Span, m: Span) {
    sentence.start < m.stop && m.start < sentence.stop
  }

  /** What an occurrence quotes of a sentence it touches. */
  function Quoted(source: string, sentence: Span, m: Span): string
    requires Touches(sentence, m) && sentence.stop <= |source| && m.stop <= |source|
    requires sentence.start <= sentence.stop && m.start <= m.stop
  {
    source[Max(sentence.start, m.start)..Min(sentence.stop, m.stop)]
  }

  /** The occurrence quotes every limiting term of the sentence, or does not touch it. */
  predicate KeepsLimits(lex: Lexicon, source: string, sentence: Span, m: Span)
    requires sentence.start <= sentence.stop <= |source| && m.start <= m.stop <= |source|
  {
    Touches(sentence, m) ==>
      lex.limits(source[sentence.start..sentence.stop]) <= lex.limits(Quoted(source, sentence, m))
  }

  lemma SentenceInside(gaps: seq<Span>, n: nat, i: nat)
    requires i <= |gaps| && SpansWithin(gaps, n) && Apart(gaps)
    ensures Sentence(gaps, n, i).start <= Sentence(gaps, n, i).stop <= n
  {
  }

  ghost predicate Supported(lex: Lexicon, source: string, m: Span)
    requires Lawful(lex) && m.start <= m.stop <= |source|
  {
    var gaps := lex.gaps(source);
    forall i :: 0 <= i <= |gaps| ==>
      (SentenceInside(gaps, |source|, i); KeepsLimits(lex, source, Sentence(gaps, |source|, i), m))
  }

  /** The meaning of the check: the whole source, or an occurrence that keeps every limit it touches. */
  ghost predicate Explicit(lex: Lexicon, claim: string, source: string)
    requires Lawful(lex)
  {
    var c, s := lex.normal(claim), lex.normal(source);
    var found := lex.matches(c, s);
    && lex.wordy(c)
    && (c == s || exists k :: 0 <= k < |found| && Supported(lex, s, found[k]))
  }

  // ----- the check

  /** `start` moves from sentence to sentence; the first limit lost ends the occurrence. */
  method OccurrenceSupported(lex: Lexicon, source: string, m: Span) returns (supported: bool)
    requires Lawful(lex) && m.start <= m.stop <= |source|
    ensures supported <==> Supported(lex, source, m)
  {
    var gaps := lex.gaps(source);
    assert SpansWithin(gaps, |source|) && Apart(gaps);
    var ends := gaps + [Span(|source|, |source|)];
    var start := 0;
    var i := 0;
    while i < |ends|
      invariant 0 <= i <= |ends|
      invariant i < |ends| ==> start == Sentence(gaps, |source|, i).start
      invariant forall k :: 0 <= k < i ==>
                  (SentenceInside(gaps, |source|, k); KeepsLimits(lex, source, Sentence(gaps, |source|, k), m))
    {
      SentenceInside(gaps, |source|, i);
      var end := ends[i].start;
      assert Sentence(gaps, |source|, i) == Span(start, end);
      if start < m.stop && end > m.start {
        var sentence := source[start..end];
        var excerpt := source[Max(start, m.start)..Min(end, m.stop)];
        if !(lex.limits(sentence) <= lex.limits(excerpt)) {
          assert !KeepsLimits(lex, source, Sentence(gaps, |source|, i), m);
          return false;
        }
      }
      start := ends[i].stop;
      i := i + 1;
    }
    supported := true;
  }

  method ClaimIsSourceExcerpt(lex: Lexicon, claim: string, source: string) returns (explicit: bool)
    requires Lawful(lex)
    ensures explicit <==> Explicit(lex, claim, source)
  {
    var c, s := lex.normal(claim), lex.normal(source);
    if c == "" || !lex.wordy(c) {
      return false;
    }
    if c == s {
      return true;
    }
    var found := lex.matches(c, s);
    assert SpansWithin(found, |s|);
    var k := 0;
    while k < |found|
      invariant 0 <= k <= |found|
      invariant forall j :: 0 <= j < k ==> !Supported(lex, s, found[j])
    {
      var supported := OccurrenceSupported(lex, s, found[k]);
      if supported {
        return true;
      }
      k := k + 1;
    }
    explicit := false;
  }

  /** A sentence is an excerpt of itself exactly when it has a word character. */
  lemma WholeSentence(lex: Lexicon, text: string)
    requires Lawful(lex)
    ensures Explicit(lex, text, text) <==> lex.wordy(lex.normal(text))
  {
  }

  /** Occurrences are cut out at word boundaries, so a term found in a part is found in the whole. */
  ghost predicate CutAtWords(lex: Lexicon)
    requires Lawful(lex)
  {
    forall c, s, k, i :: 0 <= k < |lex.matches(c, s)| && 0 <= i <= |lex.gaps(s)| ==>
      LimitsOfPart(lex, s, lex.matches(c, s)[k], i)
  }

  ghost predicate LimitsOfPart(lex: Lexicon, s: string, m: Span, i: nat)
    requires Lawful(lex) && i <= |lex.gaps(s)|
  {
    SentenceInside(lex.gaps(s), |s|, i);
    var sentence := Sentence(lex.gaps(s), |s|, i);
    m.start <= m.stop <= |s| && Touches(sentence, m) ==>
      lex.limits(Quoted(s, sentence, m)) <= lex.limits(s[m.start..m.stop])
  }

  /** An occurrence of a claim is the claim, word for word. */
  ghost predicate Literal(lex: Lexicon)
    requires Lawful(lex)
  {
    forall c, s, k :: 0 <= k < |lex.matches(c, s)| ==>
      (assert SpansWithin(lex.matches(c, s), |s|);
       var m := lex.matches(c, s)[k]; s[m.start..m.stop] == c)
  }

  ghost predicate Limited(lex: Lexicon, c: string, s: string, m: Span)
    requires Lawful(lex)
  {
    forall i :: 0 <= i <= |lex.gaps(s)| ==>
      (SentenceInside(lex.gaps(s), |s|, i);
       var sentence := Sentence(lex.gaps(s), |s|, i);
       Touches(sentence, m) ==> lex.limits(s[sentence.start..sentence.stop]) <= lex.limits(c))
  }

  /**
   * No limit is lost: an accepted claim that is not the whole source occurs somewhere so that it
   * carries every limiting term of each sentence it touches there.
   */
  lemma LimitsSurvive(lex: Lexicon, claim: string, source: string)
    requires Lawful(lex) && CutAtWords(lex) && Literal(lex)
    requires Explicit(lex, claim, source) && lex.normal(claim) != lex.normal(source)
    ensures var c, s := lex.normal(claim), lex.normal(source);
      exists k :: 0 <= k < |lex.matches(c, s)| && Limited(lex, c, s, lex.matches(c, s)[k])
  {
    var c, s := lex.normal(claim), lex.normal(source);
    var found := lex.matches(c, s);
    assert SpansWithin(found, |s|);
    var k :| 0 <= k < |found| && Supported(lex, s, found[k]);
    forall i | 0 <= i <= |lex.gaps(s)|
      ensures (SentenceInside(lex.gaps(s), |s|, i);
               var sentence := Sentence(lex.gaps(s), |s|, i);
               Touches(sentence, found[k]) ==> lex.limits(s[sentence.start..sentence.stop]) <= lex.limits(c))
    {
      SentenceInside(lex.gaps(s), |s|, i);
      assert LimitsOfPart(lex, s, lex.matches(c, s)[k], i);
      assert KeepsLimits(lex, s, Sentence(lex.gaps(s), |s|, i), found[k]);
    }
    assert Limited(lex, c, s, found[k]);
  }

  /** From a one-sentence source no accepted claim drops a limit. */
  lemma OneSentenceKeepsItsLimits(lex: Lexicon, claim: string, source: string)
    requires Lawful(lex) && CutAtWords(lex) && Literal(lex)
    requires Explicit(lex, claim, source) && lex.gaps(lex.normal(source)) == []
    ensures lex.limits(lex.normal(source)) <= lex.limits(lex.normal(claim))
  {
    var c, s := lex.normal(claim), lex.normal(source);
    if c != s {
      LimitsSurvive(lex, claim, source);
      var k :| 0 <= k < |lex.matches(c, s)| && Limited(lex, c, s, lex.matches(c, s)[k]);
      var m := lex.matches(c, s)[k];
      assert SpansWithin(lex.matches(c, s), |s|);
      var whole := Sentence(lex.gaps(s), |s|, 0);
      assert whole == Span(0, |s|) && s[0..|s|] == s;
      assert s[m.start..m.stop] == c;
      assert c != "";
      assert Touches(whole, m);
    }
  }
}
