/**
 * What the limiter guarantees over every sequence of requests, releases and passing time, in terms
 * of the log of admissions alone: the script's keys, prunes and times to live implement a sliding
 * window exactly.
 */
module LimiterSafety {
  import opened Prelude
  import opened Limiter

  datatype Admission = Admission(time: int, amount: nat, until: int, released: bool)

  /** The id of an admission is its place in the log. */
  datatype State = State(store: Store, log: seq<Admission>, now: int)

  datatype Op = Pass(microseconds: nat) | Ask(amount: nat) | Done(id: nat)

  function Step(limits: Limits, s: State, op: Op): State {
    match op
    case Pass(n) => s.(now := s.now + n)
    case Ask(amount) =>
      s.(store := Admit(limits, s.store, s.now, |s.log|, amount),
         log := if AdmitAnswer(limits, s.store, s.now, amount) == 0
                then s.log + [Admission(s.now, amount, s.now + limits.lease, false)] else s.log)
    case Done(id) =>
      s.(store := Release(s.store, id),
         log := if id < |s.log| then s.log[id := s.log[id].(released := true)] else s.log)
  }

  function After(limits: Limits, s: State, ops: seq<Op>): State
    decreases |ops|
  {
    if ops == [] then s else After(limits, Step(limits, s, ops[0]), ops[1..])
  }

  ghost predicate Initial(s: State) {
    s.store.requests == [] && s.store.tokens == [] && s.store.active == map[] && s.log == []
  }

  // ----- what the keys hold

  /** The two window keys list the admissions from the k-th on, in order. */
  ghost predicate Mirrors(requests: seq<Entry>, tokens: seq<Reserved>, log: seq<Admission>, k: nat) {
    && k + |requests| == |log| && |tokens| == |requests|
    && (forall i :: 0 <= i < |requests| ==> requests[i] == Entry(k + i, log[k + i].time))
    && (forall i :: 0 <= i < |tokens| ==> tokens[i] == Reserved(k + i, log[k + i].amount))
  }

  /** The first admission later than `limit`, in a log ordered by time. */
  function FirstNewer(log: seq<Admission>, limit: int): (k: nat)
    ensures k <= |log|
  {
    if log == [] then 0
    else if log[|log| - 1].time > limit then FirstNewer(log[..|log| - 1], limit)
    else |log|
  }

  ghost predicate Ordered(log: seq<Admission>) {
    forall i, j :: 0 <= i < j < |log| ==> log[i].time <= log[j].time
  }

  ghost predicate LogOk(limits: Limits, log: seq<Admission>, now: int) {
    && Ordered(log)
    && (forall i :: 0 <= i < |log| ==> log[i].time <= now && log[i].until == log[i].time + limits.lease)
  }

  /** How many admissions have left the requests key. */
  function Dropped(s: State): nat
    requires |s.store.requests| <= |s.log|
  {
    |s.log| - |s.store.requests|
  }

  ghost predicate WindowIs(s: State, k: nat) {
    && Mirrors(s.store.requests, s.store.tokens, s.log, k)
    && (forall i :: 0 <= i < k ==> s.log[i].time <= s.now - MINUTE)
  }

  ghost predicate ActiveIs(s: State) {
    && (forall id :: id in s.store.active ==>
          id < |s.log| && s.store.active[id] == s.log[id].until && !s.log[id].released)
    && (forall i :: 0 <= i < |s.log| && !s.log[i].released && s.log[i].until > s.now ==> i in s.store.active)
  }

  ghost predicate ExpiryIs(limits: Limits, s: State) {
    s.log != [] ==>
      && s.store.windowExpiry == s.log[|s.log| - 1].time + 2 * MINUTE
      && s.store.activeExpiry == s.log[|s.log| - 1].time + limits.lease + MINUTE
  }

  ghost predicate Inv(limits: Limits, s: State) {
    && LogOk(limits, s.log, s.now)
    && ActiveIs(s)
    && ExpiryIs(limits, s)
    && |s.store.requests| <= |s.log| && WindowIs(s, Dropped(s))
  }

  lemma {:induction false} FirstNewerSplits(log: seq<Admission>, limit: int)
    requires Ordered(log)
    ensures forall i :: 0 <= i < FirstNewer(log, limit) ==> log[i].time <= limit
    ensures forall i :: FirstNewer(log, limit) <= i < |log| ==> log[i].time > limit
  {
    if log != [] && log[|log| - 1].time > limit {
      FirstNewerSplits(log[..|log| - 1], limit);
    }
  }

  lemma {:induction false} StaleFirst(log: seq<Admission>, k: nat, limit: int)
    requires Ordered(log) && k <= |log| && forall i :: 0 <= i < k ==> log[i].time <= limit
    ensures k <= FirstNewer(log, limit)
  {
    if log != [] && log[|log| - 1].time > limit {
      StaleFirst(log[..|log| - 1], k, limit);
    }
  }

  lemma PrunedRequests(requests: seq<Entry>, tokens: seq<Reserved>, log: seq<Admission>, k: nat, now: int)
    requires Ordered(log) && Mirrors(requests, tokens, log, k) && k <= FirstNewer(log, now - MINUTE)
    ensures KeptRequests(requests, now) == requests[FirstNewer(log, now - MINUTE) - k..]
  {
    FirstNewerSplits(log, now - MINUTE);
    FilterSuffix(requests, NewerThan(now - MINUTE), FirstNewer(log, now - MINUTE) - k);
  }

  /** The stale ids are exactly the ids pruned from the window. */
  lemma StaleIds(requests: seq<Entry>, tokens: seq<Reserved>, log: seq<Admission>, k: nat, now: int, id: nat)
    requires Mirrors(requests, tokens, log, k) && k <= id < |log|
    ensures Listed(StaleRequests(requests, now), id) <==> log[id].time <= now - MINUTE
  {
    var stale := StaleRequests(requests, now);
    FilterMembers(requests, NotNewerThan(now - MINUTE));
    assert requests[id - k] == Entry(id, log[id].time);
    if log[id].time <= now - MINUTE {
      assert Entry(id, log[id].time) in stale;
      var i :| 0 <= i < |stale| && stale[i] == Entry(id, log[id].time);
    }
    if Listed(stale, id) {
      var i :| 0 <= i < |stale| && stale[i].id == id;
      assert stale[i] in stale;
      var m :| 0 <= m < |requests| && requests[m] == stale[i];
    }
  }

  lemma PrunedTokens(requests: seq<Entry>, tokens: seq<Reserved>, log: seq<Admission>, k: nat, now: int)
    requires Ordered(log) && Mirrors(requests, tokens, log, k) && k <= FirstNewer(log, now - MINUTE)
    ensures KeptTokens(requests, tokens, now) == tokens[FirstNewer(log, now - MINUTE) - k..]
  {
    var p, f := KeptWith(StaleRequests(requests, now)), FirstNewer(log, now - MINUTE);
    FirstNewerSplits(log, now - MINUTE);
    forall i | 0 <= i < |tokens| ensures p(tokens[i]) <==> f - k <= i {
      StaleIds(requests, tokens, log, k, now, k + i);
    }
    FilterSuffix(tokens, p, f - k);
  }

  // ----- the pruned store, in terms of the log

  predicate Live(a: Admission, now: int) {
    !a.released && a.until > now
  }

  predicate Recent(a: Admission, now: int) {
    a.time > now - MINUTE
  }

  function LiveAt(now: int): Admission -> bool {
    (a: Admission) => Live(a, now)
  }

  function RecentAt(now: int): Admission -> bool {
    (a: Admission) => Recent(a, now)
  }

  function SpentAt(now: int): Admission -> int {
    (a: Admission) => if Recent(a, now) then a.amount else 0
  }

  function LiveIds(log: seq<Admission>, now: int): set<nat> {
    set i: nat | i < |log| && Live(log[i], now)
  }

  /** Keys expire only after everything in them is stale, so the prune alone decides what remains. */
  lemma ReadyWindow(limits: Limits, s: State)
    requires Inv(limits, s)
    ensures var ready := Ready(s.store, s.now);
      Mirrors(ready.requests, ready.tokens, s.log, FirstNewer(s.log, s.now - MINUTE))
  {
    if s.now < s.store.windowExpiry {
      PrunedMirrors(s.store.requests, s.store.tokens, s.log, Dropped(s), s.now);
    } else {
      ExpiredWindow(limits, s);
    }
  }

  lemma PrunedMirrors(requests: seq<Entry>, tokens: seq<Reserved>, log: seq<Admission>, k: nat, now: int)
    requires Ordered(log) && Mirrors(requests, tokens, log, k)
    requires forall i :: 0 <= i < k ==> log[i].time <= now - MINUTE
    ensures Mirrors(KeptRequests(requests, now), KeptTokens(requests, tokens, now), log, FirstNewer(log, now - MINUTE))
  {
    StaleFirst(log, k, now - MINUTE);
    PrunedRequests(requests, tokens, log, k, now);
    PrunedTokens(requests, tokens, log, k, now);
  }

  lemma ExpiredWindow(limits: Limits, s: State)
    requires Inv(limits, s) && s.store.windowExpiry <= s.now
    ensures FirstNewer(s.log, s.now - MINUTE) == |s.log|
    ensures Ready(s.store, s.now).requests == [] && Ready(s.store, s.now).tokens == []
  {
    FirstNewerSplits(s.log, s.now - MINUTE);
  }

  /** The active key outlives every lease in it. */
  lemma ActivePresent(limits: Limits, s: State)
    requires Inv(limits, s)
    ensures Unexpired(Present(s.store, s.now).active, s.now) == Unexpired(s.store.active, s.now)
  {
    if s.store.activeExpiry <= s.now {
      forall id | id in s.store.active ensures s.store.active[id] <= s.now {
        assert s.log[id].time <= s.log[|s.log| - 1].time;
      }
    }
  }

  lemma ReadyActive(limits: Limits, s: State)
    requires Inv(limits, s)
    ensures var active := Ready(s.store, s.now).active;
      && active.Keys == LiveIds(s.log, s.now)
      && (forall id :: id in active ==> active[id] == s.log[id].until)
  {
    ActivePresent(limits, s);
    assert Ready(s.store, s.now).active == Unexpired(s.store.active, s.now);
  }

  lemma {:induction false} LiveIdsCount(log: seq<Admission>, now: int)
    ensures |LiveIds(log, now)| == Count(log, LiveAt(now))
  {
    if log == [] {
      assert LiveIds(log, now) == {};
    } else {
      var n: nat := |log| - 1;
      LiveIdsCount(log[..n], now);
      if Live(log[n], now) {
        assert LiveIds(log, now) == LiveIds(log[..n], now) + {n};
      } else {
        assert LiveIds(log, now) == LiveIds(log[..n], now);
      }
    }
  }

  lemma {:induction false} AllStale(log: seq<Admission>, now: int)
    requires forall i :: 0 <= i < |log| ==> log[i].time <= now - MINUTE
    ensures Count(log, RecentAt(now)) == 0 && Sum(log, SpentAt(now)) == 0
  {
    if log != [] {
      AllStale(log[..|log| - 1], now);
    }
  }

  lemma {:induction false} MirrorCounts(requests: seq<Entry>, tokens: seq<Reserved>, log: seq<Admission>, k: nat,
                                        now: int)
    requires Ordered(log) && Mirrors(requests, tokens, log, k) && k == FirstNewer(log, now - MINUTE)
    ensures |requests| == Count(log, RecentAt(now))
    ensures Sum(tokens, AmountOf()) == Sum(log, SpentAt(now))
    decreases |log|
  {
    FirstNewerSplits(log, now - MINUTE);
    if k == |log| {
      AllStale(log, now);
    } else {
      var n := |requests| - 1;
      MirrorCounts(requests[..n], tokens[..n], log[..|log| - 1], k, now);
    }
  }

  lemma AnswersZero(limits: Limits, store: Store, now: int, amount: nat)
    ensures Answer(limits, store, now, amount) == 0 <==>
      && |store.active| < limits.inflight && |store.requests| < limits.requests
      && Sum(store.tokens, AmountOf()) + amount <= limits.tokens
  {
  }

  /**
   * The script admits exactly when the log says it may: fewer live leases than the in-flight limit,
   * fewer admissions in the last minute than the request limit, and tokens left for this request.
   */
  lemma AdmitsExactly(limits: Limits, s: State, amount: nat)
    requires ValidLimits(limits) && Inv(limits, s) && amount <= limits.tokens
    ensures AdmitAnswer(limits, s.store, s.now, amount) == 0 <==>
      && Count(s.log, LiveAt(s.now)) < limits.inflight
      && Count(s.log, RecentAt(s.now)) < limits.requests
      && Sum(s.log, SpentAt(s.now)) + amount <= limits.tokens
  {
    AnswersZero(limits, Ready(s.store, s.now), s.now, amount);
    ReadyActiveCount(limits, s);
    ReadyWindowCount(limits, s);
  }

  lemma ReadyActiveCount(limits: Limits, s: State)
    requires Inv(limits, s)
    ensures |Ready(s.store, s.now).active| == Count(s.log, LiveAt(s.now))
  {
    ReadyActive(limits, s);
    LiveIdsCount(s.log, s.now);
    assert |Ready(s.store, s.now).active| == |Ready(s.store, s.now).active.Keys|;
  }

  lemma ReadyWindowCount(limits: Limits, s: State)
    requires Inv(limits, s)
    ensures |Ready(s.store, s.now).requests| == Count(s.log, RecentAt(s.now))
    ensures Sum(Ready(s.store, s.now).tokens, AmountOf()) == Sum(s.log, SpentAt(s.now))
  {
    ReadyWindow(limits, s);
    KeptCounts(s.log, s.now, Ready(s.store, s.now), FirstNewer(s.log, s.now - MINUTE));
  }

  lemma KeptCounts(log: seq<Admission>, now: int, ready: Store, k: nat)
    requires Ordered(log) && k == FirstNewer(log, now - MINUTE)
    requires Mirrors(ready.requests, ready.tokens, log, k)
    ensures |ready.requests| == Count(log, RecentAt(now))
    ensures Sum(ready.tokens, AmountOf()) == Sum(log, SpentAt(now))
  {
    MirrorCounts(ready.requests, ready.tokens, log, k, now);
  }

  // ----- every reachable state

  lemma InitialOk(limits: Limits, s: State)
    requires Initial(s)
    ensures Inv(limits, s)
  {
    assert WindowIs(s, 0);
  }

  lemma PassOk(limits: Limits, s: State, n: nat)
    requires Inv(limits, s)
    ensures Inv(limits, Step(limits, s, Pass(n)))
  {
    var k := Dropped(s);
    assert WindowIs(Step(limits, s, Pass(n)), k);
  }

  lemma DoneOk(limits: Limits, s: State, id: nat)
    requires Inv(limits, s)
    ensures Inv(limits, Step(limits, s, Done(id)))
  {
    if id < |s.log| {
      ReleasedWindow(s, id);
      ReleasedActive(s, id);
    } else {
      assert s.store.active - {id} == s.store.active;
    }
  }

  lemma ReleasedWindow(s: State, id: nat)
    requires id < |s.log| && |s.store.requests| <= |s.log| && WindowIs(s, Dropped(s))
    ensures WindowIs(s.(log := s.log[id := s.log[id].(released := true)]), Dropped(s))
  {
  }

  lemma ReleasedActive(s: State, id: nat)
    requires id < |s.log| && ActiveIs(s)
    ensures ActiveIs(s.(store := Release(s.store, id), log := s.log[id := s.log[id].(released := true)]))
  {
  }

  lemma RecordWindow(limits: Limits, s: State, s': State, k: nat, amount: nat)
    requires WindowIs(s, k) && s'.now == s.now
    requires s'.log == s.log + [Admission(s.now, amount, s.now + limits.lease, false)]
    requires s'.store == Record(limits, s.store, s.now, |s.log|, amount)
    ensures WindowIs(s', k)
  {
  }

  /** The state with its keys expired and pruned, as the script sees it. */
  function Seen(s: State): State {
    s.(store := Ready(s.store, s.now))
  }

  lemma SeenWindow(limits: Limits, s: State)
    requires Inv(limits, s)
    ensures |Seen(s).store.requests| <= |s.log| && WindowIs(Seen(s), Dropped(Seen(s)))
  {
    ReadyWindow(limits, s);
    StaleBefore(s, FirstNewer(s.log, s.now - MINUTE), Seen(s).store);
  }

  lemma StaleBefore(s: State, k: nat, store: Store)
    requires Ordered(s.log) && k == FirstNewer(s.log, s.now - MINUTE)
    requires Mirrors(store.requests, store.tokens, s.log, k)
    ensures |store.requests| <= |s.log| && Dropped(s.(store := store)) == k && WindowIs(s.(store := store), k)
  {
    FirstNewerSplits(s.log, s.now - MINUTE);
  }

  lemma SeenActive(limits: Limits, s: State)
    requires Inv(limits, s)
    ensures ActiveIs(Seen(s))
  {
    ReadyActive(limits, s);
    var active := Seen(s).store.active;
    forall i | 0 <= i < |s.log| && !s.log[i].released && s.log[i].until > s.now ensures i in active {
      assert i in LiveIds(s.log, s.now);
    }
    forall id | id in active ensures id < |s.log| && active[id] == s.log[id].until && !s.log[id].released {
      assert id in active.Keys;
    }
  }

  lemma SeenOk(limits: Limits, s: State)
    requires Inv(limits, s)
    ensures Inv(limits, Seen(s))
  {
    SeenWindow(limits, s);
    SeenActive(limits, s);
  }

  function Admitted(limits: Limits, s: State, amount: nat): State {
    State(Record(limits, s.store, s.now, |s.log|, amount),
          s.log + [Admission(s.now, amount, s.now + limits.lease, false)], s.now)
  }

  lemma RecordOk(limits: Limits, s: State, amount: nat)
    requires Inv(limits, s)
    ensures Inv(limits, Admitted(limits, s, amount))
  {
    var k := Dropped(s);
    RecordWindow(limits, s, Admitted(limits, s, amount), k, amount);
  }

  lemma SeenRecordOk(limits: Limits, s: State, amount: nat)
    requires Inv(limits, s)
    ensures Inv(limits, Admitted(limits, Seen(s), amount))
  {
    SeenOk(limits, s);
    RecordOk(limits, Seen(s), amount);
  }

  lemma StepOk(limits: Limits, s: State, op: Op)
    requires Inv(limits, s)
    ensures Inv(limits, Step(limits, s, op))
  {
    match op
    case Pass(n) => PassOk(limits, s, n);
    case Done(id) => DoneOk(limits, s, id);
    case Ask(amount) => AskOk(limits, s, amount);
  }

  lemma AskIs(limits: Limits, s: State, amount: nat)
    ensures Step(limits, s, Ask(amount))
         == if AdmitAnswer(limits, s.store, s.now, amount) == 0 then Admitted(limits, Seen(s), amount) else Seen(s)
  {
  }

  lemma AskOk(limits: Limits, s: State, amount: nat)
    requires Inv(limits, s)
    ensures Inv(limits, Step(limits, s, Ask(amount)))
  {
    AskIs(limits, s, amount);
    if AdmitAnswer(limits, s.store, s.now, amount) == 0 {
      SeenRecordOk(limits, s, amount);
    } else {
      SeenOk(limits, s);
    }
  }

  lemma {:induction false} RunOk(limits: Limits, s: State, ops: seq<Op>)
    requires Inv(limits, s)
    ensures Inv(limits, After(limits, s, ops))
    decreases |ops|
  {
    if ops != [] {
      StepOk(limits, s, ops[0]);
      RunOk(limits, Step(limits, s, ops[0]), ops[1..]);
    }
  }

  // ----- window safety

  /** A window of sixty seconds that starts at `from`, open at its right or at its left end. */
  predicate InWindow(a: Admission, from: int, rightOpen: bool) {
    if rightOpen then from <= a.time < from + MINUTE else from < a.time <= from + MINUTE
  }

  function WindowFrom(from: int, rightOpen: bool): Admission -> bool {
    (a: Admission) => InWindow(a, from, rightOpen)
  }

  function SpentFrom(from: int, rightOpen: bool): Admission -> int {
    (a: Admission) => if InWindow(a, from, rightOpen) then a.amount else 0
  }

  ghost predicate WindowsOk(limits: Limits, log: seq<Admission>) {
    forall from: int, rightOpen: bool ::
      && Count(log, WindowFrom(from, rightOpen)) <= limits.requests
      && Sum(log, SpentFrom(from, rightOpen)) <= limits.tokens
  }

  /** Every admission of a window that holds the present moment is recent. */
  lemma WindowIsRecent(limits: Limits, s: State, from: int, rightOpen: bool)
    requires Inv(limits, s) && InWindow(Admission(s.now, 0, 0, false), from, rightOpen)
    ensures Count(s.log, WindowFrom(from, rightOpen)) <= Count(s.log, RecentAt(s.now))
    ensures Sum(s.log, SpentFrom(from, rightOpen)) <= Sum(s.log, SpentAt(s.now))
  {
    CountMonotone(s.log, s.log, WindowFrom(from, rightOpen), RecentAt(s.now));
    SumMonotone(s.log, s.log, SpentFrom(from, rightOpen), SpentAt(s.now));
  }

  lemma AskWindow(limits: Limits, s: State, amount: nat, from: int, rightOpen: bool)
    requires ValidLimits(limits) && Inv(limits, s) && amount <= limits.tokens
    requires AdmitAnswer(limits, s.store, s.now, amount) == 0 && WindowsOk(limits, s.log)
    ensures var log' := s.log + [Admission(s.now, amount, s.now + limits.lease, false)];
      && Count(log', WindowFrom(from, rightOpen)) <= limits.requests
      && Sum(log', SpentFrom(from, rightOpen)) <= limits.tokens
  {
    AdmitsExactly(limits, s, amount);
    var a := Admission(s.now, amount, s.now + limits.lease, false);
    CountAppend(s.log, [a], WindowFrom(from, rightOpen));
    SumAppend(s.log, [a], SpentFrom(from, rightOpen));
    if InWindow(a, from, rightOpen) {
      WindowIsRecent(limits, s, from, rightOpen);
    }
  }

  /** Marking an admission as released changes neither when it happened nor what it spent. */
  lemma DoneWindow(log: seq<Admission>, id: nat, from: int, rightOpen: bool)
    requires id < |log|
    ensures var log' := log[id := log[id].(released := true)];
      && Count(log', WindowFrom(from, rightOpen)) == Count(log, WindowFrom(from, rightOpen))
      && Sum(log', SpentFrom(from, rightOpen)) == Sum(log, SpentFrom(from, rightOpen))
  {
    var log' := log[id := log[id].(released := true)];
    CountSame(log', log, WindowFrom(from, rightOpen), WindowFrom(from, rightOpen));
    SumMonotone(log', log, SpentFrom(from, rightOpen), SpentFrom(from, rightOpen));
    SumMonotone(log, log', SpentFrom(from, rightOpen), SpentFrom(from, rightOpen));
  }

  /** Callers ask for no more than the budget of a minute. */
  ghost predicate Affordable(limits: Limits, ops: seq<Op>) {
    forall i :: 0 <= i < |ops| && ops[i].Ask? ==> ops[i].amount <= limits.tokens
  }

  lemma StepWindows(limits: Limits, s: State, op: Op)
    requires ValidLimits(limits) && Inv(limits, s) && WindowsOk(limits, s.log)
    requires op.Ask? ==> op.amount <= limits.tokens
    ensures WindowsOk(limits, Step(limits, s, op).log)
  {
    var log' := Step(limits, s, op).log;
    forall from: int, rightOpen: bool
      ensures Count(log', WindowFrom(from, rightOpen)) <= limits.requests
              && Sum(log', SpentFrom(from, rightOpen)) <= limits.tokens
    {
      if log' != s.log {
        if op.Ask? {
          AskWindow(limits, s, op.amount, from, rightOpen);
        } else {
          DoneWindow(s.log, op.id, from, rightOpen);
        }
      }
    }
  }

  // ----- in-flight safety

  function LiveCount(s: State): nat {
    Count(s.log, LiveAt(s.now))
  }

  lemma StepLive(limits: Limits, s: State, op: Op)
    requires ValidLimits(limits) && Inv(limits, s) && LiveCount(s) <= limits.inflight
    requires op.Ask? ==> op.amount <= limits.tokens
    ensures LiveCount(Step(limits, s, op)) <= limits.inflight
  {
    match op
    case Pass(n) => CountMonotone(s.log, s.log, LiveAt(s.now + n), LiveAt(s.now));
    case Done(id) =>
      if id < |s.log| {
        CountMonotone(Step(limits, s, op).log, s.log, LiveAt(s.now), LiveAt(s.now));
      }
    case Ask(amount) =>
      AdmitsExactly(limits, s, amount);
      CountAppend(s.log, [Admission(s.now, amount, s.now + limits.lease, false)], LiveAt(s.now));
  }

  /**
   * Releasing a live lease frees exactly its slot, and does so once; it gives back no request and no
   * token of the current minute.
   */
  lemma ReleaseFreesOneSlot(limits: Limits, s: State, id: nat)
    requires ValidLimits(limits) && Reachable(limits, s)
    ensures var t := Step(limits, s, Done(id));
      && LiveCount(t) == LiveCount(s) - (if id < |s.log| && Live(s.log[id], s.now) then 1 else 0)
      && Count(t.log, RecentAt(t.now)) == Count(s.log, RecentAt(s.now))
      && Sum(t.log, SpentAt(t.now)) == Sum(s.log, SpentAt(s.now))
      && LiveCount(Step(limits, t, Done(id))) == LiveCount(t)
      && (forall amount: nat :: amount <= limits.tokens && id < |s.log| && Live(s.log[id], s.now) ==>
            (AdmitAnswer(limits, t.store, t.now, amount) == 0 <==>
               Count(s.log, RecentAt(s.now)) < limits.requests && Sum(s.log, SpentAt(s.now)) + amount <= limits.tokens))
  {
    ReachableOk(limits, s);
    SlidingWindowSafety(limits, s, s.now, true);
    ReleaseCounts(limits, s, id);
    DoneOk(limits, s, id);
    var t := Step(limits, s, Done(id));
    ReleaseCounts(limits, t, id);
    forall amount: nat | amount <= limits.tokens && id < |s.log| && Live(s.log[id], s.now)
      ensures AdmitAnswer(limits, t.store, t.now, amount) == 0 <==>
              Count(s.log, RecentAt(s.now)) < limits.requests && Sum(s.log, SpentAt(s.now)) + amount <= limits.tokens
    {
      AdmitsExactly(limits, t, amount);
    }
  }

  lemma ReleaseCounts(limits: Limits, s: State, id: nat)
    ensures var t := Step(limits, s, Done(id));
      && LiveCount(t) == LiveCount(s) - (if id < |s.log| && Live(s.log[id], s.now) then 1 else 0)
      && Count(t.log, RecentAt(t.now)) == Count(s.log, RecentAt(s.now))
      && Sum(t.log, SpentAt(t.now)) == Sum(s.log, SpentAt(s.now))
      && t.now == s.now && (id < |t.log| ==> !Live(t.log[id], t.now))
  {
    if id < |s.log| {
      var a := s.log[id].(released := true);
      CountUpdate(s.log, id, a, LiveAt(s.now));
      CountUpdate(s.log, id, a, RecentAt(s.now));
      SumMonotone(s.log, s.log[id := a], SpentAt(s.now), SpentAt(s.now));
      SumMonotone(s.log[id := a], s.log, SpentAt(s.now), SpentAt(s.now));
    }
  }

  lemma {:induction false} RunSafe(limits: Limits, s: State, ops: seq<Op>)
    requires ValidLimits(limits) && Inv(limits, s) && Affordable(limits, ops)
    requires WindowsOk(limits, s.log) && LiveCount(s) <= limits.inflight
    ensures WindowsOk(limits, After(limits, s, ops).log)
    ensures LiveCount(After(limits, s, ops)) <= limits.inflight
    decreases |ops|
  {
    if ops != [] {
      assert ops[0].Ask? ==> ops[0].amount <= limits.tokens;
      StepOk(limits, s, ops[0]);
      StepWindows(limits, s, ops[0]);
      StepLive(limits, s, ops[0]);
      RunSafe(limits, Step(limits, s, ops[0]), ops[1..]);
    }
  }

  /** After some affordable sequence of requests, releases and passing time. */
  ghost predicate Reachable(limits: Limits, s: State) {
    exists start, ops :: Initial(start) && Affordable(limits, ops) && After(limits, start, ops) == s
  }

  lemma ReachableOk(limits: Limits, s: State)
    requires ValidLimits(limits) && Reachable(limits, s)
    ensures Inv(limits, s)
  {
    var start, ops :| Initial(start) && Affordable(limits, ops) && After(limits, start, ops) == s;
    InitialOk(limits, start);
    RunOk(limits, start, ops);
  }

  /**
   * Sliding-window safety: after any sequence of requests, releases and passing time, every
   * sixty-second window, open at either end, holds at most the request limit of admissions and at
   * most the token limit of reserved tokens, and the unreleased, unexpired leases never exceed the
   * in-flight limit.
   */
  lemma SlidingWindowSafety(limits: Limits, s: State, from: int, rightOpen: bool)
    requires ValidLimits(limits) && Reachable(limits, s)
    ensures Count(s.log, WindowFrom(from, rightOpen)) <= limits.requests
    ensures Sum(s.log, SpentFrom(from, rightOpen)) <= limits.tokens
    ensures LiveCount(s) <= limits.inflight
  {
    var start, ops :| Initial(start) && Affordable(limits, ops) && After(limits, start, ops) == s;
    InitialOk(limits, start);
    RunSafe(limits, start, ops);
  }

  // ----- closed windows

  function ClosedFrom(from: int): Admission -> bool {
    (a: Admission) => from <= a.time <= from + MINUTE
  }

  function StampedAt(time: int): Admission -> bool {
    (a: Admission) => a.time == time
  }

  /** A closed minute is a half-open one and the instant that ends it. */
  lemma ClosedIsHalfOpen(log: seq<Admission>, from: int)
    ensures Count(log, ClosedFrom(from)) == Count(log, WindowFrom(from, true)) + Count(log, StampedAt(from + MINUTE))
  {
    CountSplit(log, ClosedFrom(from), WindowFrom(from, true), StampedAt(from + MINUTE));
  }

  /**
   * A closed minute holds at most twice the limit. What it holds beyond the half-open minute are
   * exactly the admissions stamped a whole minute after its start, so it exceeds the limit if and only if
   * those are more than the half-open minute leaves free.
   */
  lemma ClosedWindowBound(limits: Limits, s: State, from: int)
    requires ValidLimits(limits) && Reachable(limits, s)
    ensures Count(s.log, ClosedFrom(from)) <= 2 * limits.requests
    ensures Count(s.log, ClosedFrom(from)) > limits.requests
       <==> Count(s.log, StampedAt(from + MINUTE)) > limits.requests - Count(s.log, WindowFrom(from, true))
  {
    ClosedIsHalfOpen(s.log, from);
    SlidingWindowSafety(limits, s, from, true);
    SlidingWindowSafety(limits, s, from + MINUTE, true);
    CountMonotone(s.log, s.log, StampedAt(from + MINUTE), WindowFrom(from + MINUTE, true));
  }

  lemma {:induction false} AfterOneMore(limits: Limits, s: State, ops: seq<Op>, op: Op)
    ensures After(limits, s, ops + [op]) == Step(limits, After(limits, s, ops), op)
    decreases |ops|
  {
    if ops == [] {
      assert [op][1..] == [];
      assert ops + [op] == [op];
    } else {
      assert (ops + [op])[1..] == ops[1..] + [op];
      AfterOneMore(limits, Step(limits, s, ops[0]), ops[1..], op);
    }
  }

  lemma ReachStep(limits: Limits, s: State, op: Op)
    requires Reachable(limits, s) && (op.Ask? ==> op.amount <= limits.tokens)
    ensures Reachable(limits, Step(limits, s, op))
  {
    var start, ops :| Initial(start) && Affordable(limits, ops) && After(limits, start, ops) == s;
    AfterOneMore(limits, start, ops, op);
    assert Affordable(limits, ops + [op]);
  }

  /** `n` requests of this minute so far, all released; `closed` admissions in the closed minute from `from`. */
  ghost predicate Bursting(limits: Limits, s: State, amount: nat, n: nat, from: int, closed: nat) {
    && Reachable(limits, s) && LiveCount(s) == 0
    && Count(s.log, RecentAt(s.now)) == n && Sum(s.log, SpentAt(s.now)) == n * amount
    && Count(s.log, ClosedFrom(from)) == closed
  }

  lemma AskAgain(limits: Limits, s: State, amount: nat, n: nat, from: int, closed: nat) returns (t: State)
    requires ValidLimits(limits) && Bursting(limits, s, amount, n, from, closed) && from <= s.now <= from + MINUTE
    requires n < limits.requests && (n + 1) * amount <= limits.tokens
    ensures Bursting(limits, t, amount, n + 1, from, closed + 1) && t.now == s.now
  {
    ReachableOk(limits, s);
    Affords(n, amount, limits.tokens);
    var asked := AskOnce(limits, s, amount);
    t := ReleaseLast(limits, asked, s.log, Admission(s.now, amount, s.now + limits.lease, false));
    BurstOn(limits, s, t, amount, n, from, closed);
  }

  lemma AskOnce(limits: Limits, s: State, amount: nat) returns (t: State)
    requires ValidLimits(limits) && Reachable(limits, s) && Inv(limits, s) && LiveCount(s) == 0 && amount <= limits.tokens
    requires Count(s.log, RecentAt(s.now)) < limits.requests && Sum(s.log, SpentAt(s.now)) + amount <= limits.tokens
    ensures Reachable(limits, t) && t.now == s.now
    ensures t.log == s.log + [Admission(s.now, amount, s.now + limits.lease, false)]
  {
    AskLogs(limits, s, amount);
    ReachStep(limits, s, Ask(amount));
    t := Step(limits, s, Ask(amount));
  }

  lemma AskLogs(limits: Limits, s: State, amount: nat)
    requires ValidLimits(limits) && Inv(limits, s) && LiveCount(s) == 0 && amount <= limits.tokens
    requires Count(s.log, RecentAt(s.now)) < limits.requests && Sum(s.log, SpentAt(s.now)) + amount <= limits.tokens
    ensures Step(limits, s, Ask(amount)).log == s.log + [Admission(s.now, amount, s.now + limits.lease, false)]
    ensures Step(limits, s, Ask(amount)).now == s.now
  {
    assert Count(s.log, LiveAt(s.now)) < limits.inflight;
    Admissible(limits, s, amount);
    AdmittedLog(limits, s, amount);
  }

  lemma Admissible(limits: Limits, s: State, amount: nat)
    requires ValidLimits(limits) && Inv(limits, s) && amount <= limits.tokens
    requires Count(s.log, LiveAt(s.now)) < limits.inflight
    requires Count(s.log, RecentAt(s.now)) < limits.requests && Sum(s.log, SpentAt(s.now)) + amount <= limits.tokens
    ensures AdmitAnswer(limits, s.store, s.now, amount) == 0
  {
    AdmitsExactly(limits, s, amount);
  }

  lemma AdmittedLog(limits: Limits, s: State, amount: nat)
    requires AdmitAnswer(limits, s.store, s.now, amount) == 0
    ensures Step(limits, s, Ask(amount)).log == s.log + [Admission(s.now, amount, s.now + limits.lease, false)]
    ensures Step(limits, s, Ask(amount)).now == s.now
  {
  }

  lemma ReleaseLast(limits: Limits, s: State, log: seq<Admission>, a: Admission) returns (t: State)
    requires Reachable(limits, s) && s.log == log + [a]
    ensures Reachable(limits, t) && t.now == s.now && t.log == log + [a.(released := true)]
  {
    t := Step(limits, s, Done(|log|));
    ReachStep(limits, s, Done(|log|));
    assert (log + [a])[|log| := a.(released := true)] == log + [a.(released := true)];
  }

  lemma BurstOn(limits: Limits, s: State, t: State, amount: nat, n: nat, from: int, closed: nat)
    requires Bursting(limits, s, amount, n, from, closed) && from <= s.now <= from + MINUTE && Reachable(limits, t)
    requires t.log == s.log + [Admission(s.now, amount, s.now + limits.lease, true)] && t.now == s.now
    ensures Bursting(limits, t, amount, n + 1, from, closed + 1)
  {
    OneMore(s.log, Admission(s.now, amount, s.now + limits.lease, true), s.now, from);
    assert (n + 1) * amount == n * amount + amount;
  }

  lemma Affords(n: nat, amount: nat, tokens: nat)
    requires (n + 1) * amount <= tokens
    ensures n * amount + amount <= tokens && amount <= tokens
  {
    assert (n + 1) * amount == n * amount + amount;
  }

  lemma OneMore(log: seq<Admission>, a: Admission, now: int, from: int)
    requires a.released && a.time == now && from <= now <= from + MINUTE
    ensures Count(log + [a], LiveAt(now)) == Count(log, LiveAt(now))
    ensures Count(log + [a], RecentAt(now)) == Count(log, RecentAt(now)) + 1
    ensures Sum(log + [a], SpentAt(now)) == Sum(log, SpentAt(now)) + a.amount
    ensures Count(log + [a], ClosedFrom(from)) == Count(log, ClosedFrom(from)) + 1
  {
    CountAppend(log, [a], LiveAt(now));
    CountAppend(log, [a], RecentAt(now));
    CountAppend(log, [a], ClosedFrom(from));
    SumAppend(log, [a], SpentAt(now));
    OneEntry(a, LiveAt(now));
    OneEntry(a, RecentAt(now));
    OneEntry(a, ClosedFrom(from));
    OneSpent(a, SpentAt(now));
  }

  lemma {:induction false} Burst(limits: Limits, s: State, amount: nat, n: nat, from: int, closed: nat) returns (t: State)
    requires ValidLimits(limits) && Bursting(limits, s, amount, 0, from, closed) && from <= s.now <= from + MINUTE
    requires n <= limits.requests && n * amount <= limits.tokens
    ensures Bursting(limits, t, amount, n, from, closed + n) && t.now == s.now
    decreases n
  {
    if n == 0 {
      t := s;
    } else {
      var m: nat := n - 1;
      assert n * amount == m * amount + amount;
      var before := Burst(limits, s, amount, m, from, closed);
      t := AskAgain(limits, before, amount, m, from, closed + m);
    }
  }

  lemma FreshStart(limits: Limits, amount: nat, from: int) returns (s: State)
    ensures Bursting(limits, s, amount, 0, from, 0) && s.now == from
  {
    s := State(Store([], [], map[], 0, 0), [], from);
    assert Affordable(limits, []) && After(limits, s, []) == s;
    assert Reachable(limits, s);
  }

  /** A minute later everything has left the window, though not the closed minute. */
  lemma MinuteLater(limits: Limits, s: State, amount: nat, n: nat, from: int, closed: nat)
    requires Bursting(limits, s, amount, n, from, closed) && ValidLimits(limits)
    ensures var t := Step(limits, s, Pass(MINUTE)); Bursting(limits, t, amount, 0, from, closed) && t.now == s.now + MINUTE
  {
    var t := Step(limits, s, Pass(MINUTE));
    ReachableOk(limits, s);
    ReachStep(limits, s, Pass(MINUTE));
    AllStale(s.log, t.now);
    CountMonotone(s.log, s.log, LiveAt(t.now), LiveAt(s.now));
  }

  /**
   * The bound is reached, whatever the limits: with amounts that fit the budget, a run of requests
   * answered and released at once, a minute's pause and the same again fill a closed minute twice over.
   */
  lemma ClosedWindowReachesTwice(limits: Limits, amount: nat, from: int)
    requires ValidLimits(limits) && limits.requests * amount <= limits.tokens
    ensures exists s :: Reachable(limits, s) && Count(s.log, ClosedFrom(from)) == 2 * limits.requests
  {
    var start := FreshStart(limits, amount, from);
    var full := Burst(limits, start, amount, limits.requests, from, 0);
    MinuteLater(limits, full, amount, limits.requests, from, limits.requests);
    var again := Burst(limits, Step(limits, full, Pass(MINUTE)), amount, limits.requests, from, limits.requests);
    assert Reachable(limits, again) && Count(again.log, ClosedFrom(from)) == 2 * limits.requests;
  }

  lemma OneEntry(a: Admission, p: Admission -> bool)
    ensures Count([a], p) == if p(a) then 1 else 0
  {
    assert [a][..0] == [];
  }

  lemma OneSpent(a: Admission, f: Admission -> int)
    ensures Sum([a], f) == f(a)
  {
    assert [a][..0] == [];
  }

  // ----- progress

  lemma {:induction false} EarliestIsLeast(requests: seq<Entry>) returns (i: nat)
    requires requests != []
    ensures i < |requests| && requests[i].score == Earliest(requests)
    ensures forall j :: 0 <= j < |requests| ==> Earliest(requests) <= requests[j].score
  {
    var n: nat := |requests| - 1;
    i := n;
    if n > 0 {
      var m := EarliestIsLeast(requests[..n]);
      if requests[m].score < requests[n].score {
        i := m;
      }
    }
  }

  /** The window's entries are later than a minute ago and not later than now. */
  lemma WindowTimes(limits: Limits, s: State)
    requires Inv(limits, s)
    ensures forall i :: 0 <= i < |Ready(s.store, s.now).requests| ==>
              s.now - MINUTE < Ready(s.store, s.now).requests[i].score <= s.now
  {
    ReadyWindow(limits, s);
    FirstNewerSplits(s.log, s.now - MINUTE);
  }

  /**
   * A denied caller is told to wait 2 seconds when the leases are used up, and otherwise until the
   * earliest recent admission leaves the window: between 1 and 60 seconds. With the settings'
   * bounds the answer for a full budget over an empty window is never given.
   */
  lemma WaitIsBounded(limits: Limits, s: State, amount: nat)
    requires ValidLimits(limits) && Inv(limits, s) && amount <= limits.tokens
    ensures var ready, wait := Ready(s.store, s.now), AdmitAnswer(limits, s.store, s.now, amount);
      && 0 <= wait <= 60
      && (LiveCount(s) >= limits.inflight ==> wait == 2)
      && (LiveCount(s) < limits.inflight && wait != 0 ==>
            ready.requests != []
            && (wait - 1) * SECOND < Earliest(ready.requests) + MINUTE - s.now <= wait * SECOND)
  {
    var ready := Ready(s.store, s.now);
    ReadyActiveCount(limits, s);
    if ready.requests == [] {
      EmptyWindow(limits, s);
    } else {
      WindowTimes(limits, s);
      var _ := EarliestIsLeast(ready.requests);
      CeilingSpan(MINUTE + Earliest(ready.requests) - s.now);
    }
  }

  lemma EmptyWindow(limits: Limits, s: State)
    requires Inv(limits, s) && Ready(s.store, s.now).requests == []
    ensures Ready(s.store, s.now).tokens == [] && Sum(Ready(s.store, s.now).tokens, AmountOf()) == 0
  {
    ReadyWindow(limits, s);
  }

  lemma CeilingSpan(t: int)
    requires 0 < t
    ensures 1 <= CeilSeconds(t) && (CeilSeconds(t) - 1) * SECOND < t <= CeilSeconds(t) * SECOND
    ensures t <= MINUTE ==> CeilSeconds(t) <= 60
  {
  }

  /** The caller asks; when denied it sleeps as told (`extra` microseconds longer) and asks again. */
  ghost predicate AdmittedWithin(limits: Limits, s: State, amount: nat, tries: nat, deadline: int)
    decreases tries
  {
    AdmitAnswer(limits, s.store, s.now, amount) == 0
    || (0 < tries
        && var slept := AfterSleep(limits, s, amount);
           slept.now < deadline && AdmittedWithin(limits, slept, amount, tries - 1, deadline))
  }

  function AfterSleep(limits: Limits, s: State, amount: nat): State {
    var wait := AdmitAnswer(limits, s.store, s.now, amount);
    var denied := Step(limits, s, Ask(amount));
    denied.(now := denied.now + Max(0, wait) * SECOND)
  }

  function Recents(s: State): nat {
    Count(s.log, RecentAt(s.now))
  }

  lemma AfterSleepIs(limits: Limits, s: State, amount: nat)
    requires AdmitAnswer(limits, s.store, s.now, amount) > 0
    ensures AfterSleep(limits, s, amount) == Slept(s, AdmitAnswer(limits, s.store, s.now, amount) * SECOND)
  {
    AskIs(limits, s, amount);
  }

  function Slept(s: State, n: nat): State {
    Seen(s).(now := s.now + n)
  }

  lemma SleptState(limits: Limits, s: State, n: nat)
    requires Inv(limits, s)
    ensures Slept(s, n).log == s.log && Slept(s, n).now == s.now + n && Inv(limits, Slept(s, n))
  {
    assert Inv(limits, Seen(s)) by {
      SeenOk(limits, s);
    }
    PassOk(limits, Seen(s), n);
    assert Slept(s, n) == Step(limits, Seen(s), Pass(n));
  }

  /** Later, no more admissions are recent or live; the one that left is gone from the count. */
  lemma SleepCounts(limits: Limits, s: State, slept: State, first: nat, last: int, n: nat)
    requires slept.log == s.log && slept.now == s.now + n && first < |s.log|
    requires s.log[first].time > s.now - MINUTE && s.log[first].time <= last
    requires n - SECOND < s.log[first].time + MINUTE - s.now <= n
    ensures LiveCount(slept) <= LiveCount(s) && Recents(slept) < Recents(s)
    ensures slept.now < last + MINUTE + SECOND
  {
    CountMonotone(s.log, s.log, LiveAt(slept.now), LiveAt(s.now));
    CountStrict(s.log, s.log, RecentAt(slept.now), RecentAt(s.now), first);
  }

  lemma EarliestOf(requests: seq<Entry>, tokens: seq<Reserved>, log: seq<Admission>, k: nat) returns (i: nat)
    requires Mirrors(requests, tokens, log, k) && requests != []
    ensures k <= i < |log| && log[i].time == Earliest(requests)
  {
    var m := EarliestIsLeast(requests);
    i := k + m;
  }

  lemma EarliestInLog(limits: Limits, s: State) returns (i: nat)
    requires Inv(limits, s) && Ready(s.store, s.now).requests != []
    ensures i < |s.log| && s.log[i].time == Earliest(Ready(s.store, s.now).requests)
    ensures s.log[i].time > s.now - MINUTE
  {
    var ready := Ready(s.store, s.now);
    ReadyWindow(limits, s);
    i := EarliestOf(ready.requests, ready.tokens, s.log, FirstNewer(s.log, s.now - MINUTE));
    FirstNewerSplits(s.log, s.now - MINUTE);
  }

  /** A denied caller with a free slot is told to outwait the earliest recent admission. */
  lemma DeniedWait(limits: Limits, s: State, amount: nat) returns (first: nat)
    requires ValidLimits(limits) && Inv(limits, s) && amount <= limits.tokens && LiveCount(s) < limits.inflight
    requires AdmitAnswer(limits, s.store, s.now, amount) != 0
    ensures var wait := AdmitAnswer(limits, s.store, s.now, amount);
      && first < |s.log| && s.log[first].time > s.now - MINUTE && wait > 0
      && (wait - 1) * SECOND < s.log[first].time + MINUTE - s.now <= wait * SECOND
  {
    WaitIsBounded(limits, s, amount);
    first := EarliestInLog(limits, s);
  }

  /** One sleep outlasts the earliest entry of the window, and lets nothing new in. */
  lemma SleepShrinks(limits: Limits, s: State, amount: nat, last: int)
    requires ValidLimits(limits) && Inv(limits, s) && amount <= limits.tokens && LiveCount(s) < limits.inflight
    requires AdmitAnswer(limits, s.store, s.now, amount) != 0
    requires forall i :: 0 <= i < |s.log| ==> s.log[i].time <= last
    ensures var slept := AfterSleep(limits, s, amount);
      && Inv(limits, slept) && slept.log == s.log && LiveCount(slept) < limits.inflight
      && Recents(slept) < Recents(s)
      && slept.now < last + MINUTE + SECOND
  {
    var first := DeniedWait(limits, s, amount);
    var n := AdmitAnswer(limits, s.store, s.now, amount) * SECOND;
    AfterSleepIs(limits, s, amount);
    SleptState(limits, s, n);
    SleepCounts(limits, s, AfterSleep(limits, s, amount), first, last, n);
  }

  lemma {:induction false} Admitted0(limits: Limits, s: State, amount: nat, tries: nat, last: int)
    requires ValidLimits(limits) && Inv(limits, s) && amount <= limits.tokens && LiveCount(s) < limits.inflight
    requires forall i :: 0 <= i < |s.log| ==> s.log[i].time <= last
    requires Recents(s) <= tries
    ensures AdmittedWithin(limits, s, amount, tries, last + MINUTE + SECOND)
    decreases tries
  {
    if AdmitAnswer(limits, s.store, s.now, amount) != 0 {
      SleepShrinks(limits, s, amount, last);
      var n: nat := tries - 1;
      Admitted0(limits, AfterSleep(limits, s, amount), amount, n, last);
    }
  }

  lemma AdmittedFromHere(limits: Limits, s: State, amount: nat)
    requires ValidLimits(limits) && Inv(limits, s) && amount <= limits.tokens && LiveCount(s) < limits.inflight
    ensures AdmittedWithin(limits, s, amount, Recents(s), s.now + MINUTE + SECOND)
  {
    Admitted0(limits, s, amount, Recents(s), s.now);
  }

  /**
   * Progress: a lone caller that finds a free in-flight slot and sleeps each wait it is given is
   * admitted after at most as many retries as the window had entries, and within 61 seconds.
   */
  lemma LoneCallerIsAdmitted(limits: Limits, s: State, amount: nat)
    requires ValidLimits(limits) && Reachable(limits, s) && amount <= limits.tokens
    requires LiveCount(s) < limits.inflight
    ensures AdmittedWithin(limits, s, amount, Recents(s), s.now + MINUTE + SECOND)
  {
    ReachableOk(limits, s);
    AdmittedFromHere(limits, s, amount);
  }
}
