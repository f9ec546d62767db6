/**
 * The shared provider limiter: one atomic script over two sorted sets and a hash that admits a
 * request when an in-flight lease, a request slot and a token budget are free, and otherwise says
 * how long to wait. Time is a non-decreasing count of microseconds.
 */
module Limiter {
  import opened Prelude

  const SECOND: int := 1_000_000
  const MINUTE: int := 60 * SECOND

  datatype Limits = Limits(requests: nat, tokens: nat, inflight: nat, lease: nat)

  ghost predicate ValidLimits(limits: Limits) {
    1 <= limits.requests && 1 <= limits.tokens && 1 <= limits.inflight && 31 * SECOND <= limits.lease
  }

  /** The request ceiling reserved by a caller: a fixed size for the mock provider, else its context. */
  function Estimate(mock: bool, perRequest: nat, context: nat, limits: Limits): (amount: nat)
    requires perRequest <= limits.tokens
    ensures amount <= limits.tokens
  {
    if mock then perRequest else Min(context, limits.tokens)
  }

  /** A member of the requests set with its score. */
  datatype Entry = Entry(id: nat, score: int)

  /** A field of the tokens hash. */
  datatype Reserved = Reserved(id: nat, amount: nat)

  /** The three keys, and when the server drops them. */
  datatype Store = Store(
    requests: seq<Entry>,
    tokens: seq<Reserved>,
    active: map<nat, int>,
    windowExpiry: int,
    activeExpiry: int)

  // ----- the script, step by step

  /** A key whose time to live has run out reads as empty. */
  function Present(store: Store, now: int): Store {
    var window := now < store.windowExpiry;
    store.(requests := if window then store.requests else [],
           tokens := if window then store.tokens else [],
           active := if now < store.activeExpiry then store.active else map[])
  }

  function NewerThan(limit: int): Entry -> bool {
    (e: Entry) => e.score > limit
  }

  predicate Listed(requests: seq<Entry>, id: nat) {
    exists i :: 0 <= i < |requests| && requests[i].id == id
  }

  function KeptWith(stale: seq<Entry>): Reserved -> bool {
    (t: Reserved) => !Listed(stale, t.id)
  }

  function NotNewerThan(limit: int): Entry -> bool {
    (e: Entry) => e.score <= limit
  }

  function KeptRequests(requests: seq<Entry>, now: int): seq<Entry> {
    Filter(requests, NewerThan(now - MINUTE))
  }

  function StaleRequests(requests: seq<Entry>, now: int): seq<Entry> {
    Filter(requests, NotNewerThan(now - MINUTE))
  }

  function KeptTokens(requests: seq<Entry>, tokens: seq<Reserved>, now: int): seq<Reserved> {
    Filter(tokens, KeptWith(StaleRequests(requests, now)))
  }

  function Prune(store: Store, now: int): Store {
    store.(requests := KeptRequests(store.requests, now),
           tokens := KeptTokens(store.requests, store.tokens, now),
           active := Unexpired(store.active, now))
  }

  function Unexpired(active: map<nat, int>, now: int): map<nat, int> {
    map id | id in active && active[id] > now :: active[id]
  }

  function AmountOf(): Reserved -> int {
    (t: Reserved) => t.amount
  }

  function Earliest(requests: seq<Entry>): int
    requires requests != []
  {
    if |requests| == 1 then requests[0].score
    else Min(Earliest(requests[..|requests| - 1]), requests[|requests| - 1].score)
  }

  /** Whole seconds covering `t` microseconds. */
  function CeilSeconds(t: int): int {
    (t + SECOND - 1) / SECOND
  }

  /** The script's answer on a pruned store: 0 admits, anything else is a wait in seconds. */
  function Answer(limits: Limits, store: Store, now: int, amount: nat): int {
    if |store.active| >= limits.inflight then 2
    else if |store.requests| >= limits.requests || Sum(store.tokens, AmountOf()) + amount > limits.tokens then
      if store.requests == [] then 60
      else Max(1, CeilSeconds(MINUTE + Earliest(store.requests) - now))
    else 0
  }

  function Record(limits: Limits, store: Store, now: int, id: nat, amount: nat): Store {
    Store(store.requests + [Entry(id, now)], store.tokens + [Reserved(id, amount)],
          store.active[id := now + limits.lease], now + 2 * MINUTE, now + limits.lease + MINUTE)
  }

  function Ready(store: Store, now: int): Store {
    Prune(Present(store, now), now)
  }

  function AdmitAnswer(limits: Limits, store: Store, now: int, amount: nat): int {
    Answer(limits, Ready(store, now), now, amount)
  }

  function Admit(limits: Limits, store: Store, now: int, id: nat, amount: nat): Store {
    if AdmitAnswer(limits, store, now, amount) == 0 then Record(limits, Ready(store, now), now, id, amount)
    else Ready(store, now)
  }

  function Release(store: Store, id: nat): Store {
    store.(active := store.active - {id})
  }
}
