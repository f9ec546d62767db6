/**
 * The script as Redis runs it: loops and in-place changes of the three keys, proved to do what
 * Limiter's one-step description says.
 */
module LimiterScript {
  import opened Prelude
  import opened L = Limiter

  class RedisLimiter {
    const limits: Limits
    var requests: seq<Entry>
    var tokens: seq<Reserved>
    var active: map<nat, int>
    var windowExpiry: int
    var activeExpiry: int

    constructor (limits: Limits)
      ensures this.limits == limits && Contents() == Store([], [], map[], 0, 0)
    {
      this.limits := limits;
      requests, tokens, active, windowExpiry, activeExpiry := [], [], map[], 0, 0;
    }

    function Contents(): Store
      reads this
    {
      Store(requests, tokens, active, windowExpiry, activeExpiry)
    }

    /** The server's own expiry, before the script sees the keys. */
    method DropExpiredKeys(now: int)
      modifies this
      ensures Contents() == Present(old(Contents()), now)
    {
      if windowExpiry <= now {
        requests, tokens := [], [];
      }
      if activeExpiry <= now {
        active := map[];
      }
    }

    method PruneWindow(now: int)
      modifies this`requests, this`tokens
      ensures requests == Prune(old(Contents()), now).requests && tokens == Prune(old(Contents()), now).tokens
    {
      var stale := [];
      var kept := [];
      var i := 0;
      while i < |requests|
        invariant 0 <= i <= |requests|
        invariant stale == Filter(requests[..i], NotNewerThan(now - MINUTE))
        invariant kept == Filter(requests[..i], NewerThan(now - MINUTE))
      {
        assert requests[..i + 1][..i] == requests[..i];
        if requests[i].score <= now - MINUTE {
          stale := stale + [requests[i]];
        } else {
          kept := kept + [requests[i]];
        }
        i := i + 1;
      }
      assert requests[..i] == requests;
      ghost var hash := tokens;
      FilterAll(hash, KeptWith(stale[..0]));
      var k := 0;
      while k < |stale|
        invariant 0 <= k <= |stale|
        invariant tokens == Filter(hash, KeptWith(stale[..k]))
      {
        FilterTwice(hash, stale, k);
        tokens := Filter(tokens, KeptWith([stale[k]]));
        k := k + 1;
      }
      assert stale[..k] == stale;
      requests := kept;
    }

    method Used() returns (used: int)
      ensures used == Sum(tokens, AmountOf())
    {
      used := 0;
      var i := 0;
      while i < |tokens|
        invariant 0 <= i <= |tokens| && used == Sum(tokens[..i], AmountOf())
      {
        assert tokens[..i + 1][..i] == tokens[..i];
        used := used + tokens[i].amount;
        i := i + 1;
      }
      assert tokens[..i] == tokens;
    }

    /** Returns 0 and takes a lease under `id`, or returns how many seconds to wait. */
    method Admit(now: int, id: nat, amount: nat) returns (wait: int)
      modifies this
      ensures wait == AdmitAnswer(limits, old(Contents()), now, amount)
      ensures Contents() == L.Admit(limits, old(Contents()), now, id, amount)
    {
      ghost var before := Contents();
      DropExpiredKeys(now);
      PruneWindow(now);
      active := Unexpired(active, now);
      assert Contents() == Ready(before, now);
      var used := Used();
      if |active| >= limits.inflight {
        return 2;
      }
      if |requests| >= limits.requests || used + amount > limits.tokens {
        if requests == [] {
          return 60;
        }
        return Max(1, CeilSeconds(MINUTE + Earliest(requests) - now));
      }
      Write(now, id, amount);
      return 0;
    }

    /** One call: reserve the ceiling of the request and run the script. */
    method Request(now: int, id: nat, mock: bool, perRequest: nat, context: nat) returns (admitted: bool, wait: int)
      requires perRequest <= limits.tokens
      modifies this
      ensures var amount := if mock then perRequest else if context <= limits.tokens then context else limits.tokens;
        && wait == AdmitAnswer(limits, old(Contents()), now, amount)
        && Contents() == L.Admit(limits, old(Contents()), now, id, amount)
        && (admitted ==> tokens != [] && tokens[|tokens| - 1] == Reserved(id, amount))
      ensures admitted <==> wait == 0
    {
      wait := Admit(now, id, Estimate(mock, perRequest, context, limits));
      admitted := wait == 0;
    }

    method Write(now: int, id: nat, amount: nat)
      modifies this
      ensures Contents() == Record(limits, old(Contents()), now, id, amount)
    {
      requests := requests + [Entry(id, now)];
      tokens := tokens + [Reserved(id, amount)];
      active := active[id := now + limits.lease];
      windowExpiry := now + 2 * MINUTE;
      activeExpiry := now + limits.lease + MINUTE;
    }

    method Release(id: nat)
      modifies this`active
      ensures Contents() == L.Release(old(Contents()), id)
    {
      active := active - {id};
    }
  }

  lemma FilterTwice(hash: seq<Reserved>, stale: seq<Entry>, k: nat)
    requires k < |stale|
    ensures Filter(Filter(hash, KeptWith(stale[..k])), KeptWith([stale[k]])) == Filter(hash, KeptWith(stale[..k + 1]))
  {
    if hash != [] {
      var front, last := hash[..|hash| - 1], hash[|hash| - 1];
      FilterTwice(front, stale, k);
      ListedNext(stale, k, last.id);
      var kept := Filter(front, KeptWith(stale[..k]));
      assert (kept + [last])[..|kept|] == kept;
    }
  }

  lemma ListedNext(stale: seq<Entry>, k: nat, id: nat)
    requires k < |stale|
    ensures Listed(stale[..k + 1], id) <==> Listed(stale[..k], id) || Listed([stale[k]], id)
  {
    if Listed(stale[..k], id) {
      var i :| 0 <= i < k && stale[..k][i].id == id;
      assert stale[..k + 1][i].id == id;
    }
    if Listed([stale[k]], id) {
      assert stale[..k + 1][k].id == id;
    }
    if Listed(stale[..k + 1], id) {
      var i :| 0 <= i < k + 1 && stale[..k + 1][i].id == id;
      if i < k {
        assert stale[..k][i].id == id;
      } else {
        assert [stale[k]][0].id == id;
      }
    }
  }
}
