/**
 * The limiter seen by its callers: what each call wants is what it reserves, so over any sequence of calls
 * the sizes that were admitted stay within the provider's minute.
 */
module LimiterCalls {
  import opened Prelude
  import opened Limiter
  import opened LimiterSafety

  /** A call to the mock provider has a fixed size; any other call may use its whole context. */
  datatype Call = Pause(microseconds: nat) | Request(mock: bool, perRequest: nat, context: nat) | Finish(id: nat)

  /** `wanted` lists the sizes of the admitted calls, in the order of the log. */
  datatype Book = Book(state: State, wanted: seq<nat>)

  function Size(call: Call): nat
    requires call.Request?
  {
    if call.mock then call.perRequest else call.context
  }

  /** The settings keep the fixed size within the minute budget. */
  ghost predicate ValidCalls(limits: Limits, calls: seq<Call>) {
    forall i :: 0 <= i < |calls| && calls[i].Request? ==> calls[i].perRequest <= limits.tokens
  }

  function OpOf(limits: Limits, call: Call): Op
    requires call.Request? ==> call.perRequest <= limits.tokens
  {
    match call
    case Pause(n) => Pass(n)
    case Request(mock, perRequest, context) => Ask(Estimate(mock, perRequest, context, limits))
    case Finish(id) => Done(id)
  }

  function Called(limits: Limits, b: Book, call: Call): Book
    requires call.Request? ==> call.perRequest <= limits.tokens
  {
    var s := Step(limits, b.state, OpOf(limits, call));
    Book(s, if call.Request? && |s.log| > |b.state.log| then b.wanted + [Size(call)] else b.wanted)
  }

  function AfterCalls(limits: Limits, b: Book, calls: seq<Call>): Book
    requires ValidCalls(limits, calls)
    decreases |calls|
  {
    if calls == [] then b else AfterCalls(limits, Called(limits, b, calls[0]), calls[1..])
  }

  /** The admitted sizes of a minute, each counted up to the budget. */
  function WantedIn(limits: Limits, log: seq<Admission>, wanted: seq<nat>, from: int): nat
    requires |log| == |wanted|
  {
    if log == [] then 0
    else
      var n := |log| - 1;
      WantedIn(limits, log[..n], wanted[..n], from)
      + (if from <= log[n].time < from + MINUTE then
           if wanted[n] <= limits.tokens then wanted[n] else limits.tokens
         else 0)
  }

  /** Each admission reserved the size its call wanted, or the whole budget if that is less. */
  ghost predicate Reserves(limits: Limits, b: Book) {
    && |b.wanted| == |b.state.log|
    && (forall i :: 0 <= i < |b.wanted| ==>
          b.state.log[i].amount == if b.wanted[i] <= limits.tokens then b.wanted[i] else limits.tokens)
  }

  lemma CallReserves(limits: Limits, b: Book, call: Call)
    requires Reserves(limits, b) && (call.Request? ==> call.perRequest <= limits.tokens)
    ensures Reserves(limits, Called(limits, b, call))
  {
  }

  lemma {:induction false} CallsReserve(limits: Limits, b: Book, calls: seq<Call>, ops: seq<Op>)
    requires ValidCalls(limits, calls) && Reserves(limits, b)
    requires |ops| == |calls| && forall i :: 0 <= i < |calls| ==> ops[i] == OpOf(limits, calls[i])
    ensures Reserves(limits, AfterCalls(limits, b, calls))
    ensures AfterCalls(limits, b, calls).state == After(limits, b.state, ops)
    decreases |calls|
  {
    if calls != [] {
      CallReserves(limits, b, calls[0]);
      CallsReserve(limits, Called(limits, b, calls[0]), calls[1..], ops[1..]);
    }
  }

  lemma {:induction false} WantedIsSpent(limits: Limits, log: seq<Admission>, wanted: seq<nat>, from: int)
    requires |log| == |wanted|
    requires forall i :: 0 <= i < |wanted| ==>
               log[i].amount == if wanted[i] <= limits.tokens then wanted[i] else limits.tokens
    ensures WantedIn(limits, log, wanted, from) == Sum(log, SpentFrom(from, true))
  {
    if log != [] {
      WantedIsSpent(limits, log[..|log| - 1], wanted[..|log| - 1], from);
    }
  }

  /**
   * Over any sequence of calls, pauses and releases: the admitted sizes of every half-open minute, the
   * fixed size of a mock call and the context of any other, add up to at most the token limit, and there are
   * at most as many of them as the request limit.
   */
  lemma ProviderWindow(limits: Limits, start: State, calls: seq<Call>, from: int)
    requires ValidLimits(limits) && Initial(start) && ValidCalls(limits, calls)
    ensures var b := AfterCalls(limits, Book(start, []), calls);
      && |b.wanted| == |b.state.log|
      && WantedIn(limits, b.state.log, b.wanted, from) <= limits.tokens
      && Count(b.state.log, WindowFrom(from, true)) <= limits.requests
  {
    var ops := seq(|calls|, i requires 0 <= i < |calls| => OpOf(limits, calls[i]));
    CallsReserve(limits, Book(start, []), calls, ops);
    var b := AfterCalls(limits, Book(start, []), calls);
    assert Affordable(limits, ops);
    assert Reachable(limits, b.state);
    SlidingWindowSafety(limits, b.state, from, true);
    WantedIsSpent(limits, b.state.log, b.wanted, from);
  }
}
