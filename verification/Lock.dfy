/** The expiring lock of `lock.service.ts`: `SET key token PX ttl NX`, and compare-and-delete on release. */
module Lock {
  import opened Common
  import opened Redis

  type Slot = Option<Entry<nat>>

  function Acquire(slot: Slot, now: int, token: nat, ttlMs: nat): Slot {
    if Lookup(slot, now).None? then Some(Entry(token, now + ttlMs)) else slot
  }

  function Release(slot: Slot, now: int, token: nat): Slot {
    if Lookup(slot, now) == Some(token) then None else slot
  }

  /** Tokens stand for the random strings the service draws, so the caller supplies them here. */
  class LockService {
    var keys: map<string, Entry<nat>>

    constructor ()
      ensures keys == map[]
    {
      keys := map[];
    }

    function At(key: string): Slot
      reads this
    {
      if key in keys then Some(keys[key]) else None
    }

    method TryAcquire(now: int, key: string, token: nat, ttlMs: nat) returns (held: Option<nat>)
      modifies this
      ensures held == if Lookup(old(At(key)), now).None? then Some(token) else None
      ensures At(key) == Acquire(old(At(key)), now, token, ttlMs)
      ensures forall k :: k != key ==> At(k) == old(At(k))
    {
      if key in keys && now <= keys[key].expiresAt {
        return None;
      }
      keys := keys[key := Entry(token, now + ttlMs)];
      held := Some(token);
    }

    method Free(now: int, key: string, token: nat)
      modifies this
      ensures At(key) == Release(old(At(key)), now, token)
      ensures forall k :: k != key ==> At(k) == old(At(k))
    {
      if key in keys && now <= keys[key].expiresAt && keys[key].value == token {
        keys := keys - {key};
      }
    }
  }

  /** One successful acquisition, and the time until which it excluded every other. */
  datatype Grant = Grant(token: nat, from: int, until: int)

  /** A release is made by the holder of some earlier grant, however stale. */
  datatype Call = Take(at: int, token: nat, ttlMs: nat) | Drop(at: int, grant: nat)

  datatype History = History(slot: Slot, grants: seq<Grant>)

  ghost function Apply(h: History, c: Call): History {
    match c
    case Take(at, token, ttlMs) =>
      if Lookup(h.slot, at).None? then
        History(Acquire(h.slot, at, token, ttlMs), h.grants + [Grant(token, at, at + ttlMs)])
      else h
    case Drop(at, g) =>
      if g >= |h.grants| then h else
        var slot := Release(h.slot, at, h.grants[g].token);
        if slot == h.slot then h
        else
          var last := |h.grants| - 1;
          History(slot, h.grants[last := h.grants[last].(until := at)])
  }

  ghost function Run(calls: seq<Call>): History {
    if calls == [] then History(None, []) else Apply(Run(calls[..|calls| - 1]), calls[|calls| - 1])
  }

  ghost predicate InOrder(calls: seq<Call>) {
    forall i, j :: 0 <= i < j < |calls| ==> calls[i].at <= calls[j].at
  }

  ghost predicate DistinctTokens(calls: seq<Call>) {
    forall i, j :: 0 <= i < j < |calls| && calls[i].Take? && calls[j].Take? ==> calls[i].token != calls[j].token
  }

  /** What every run keeps. A stored key belongs to the latest grant, which has not been cut short. */
  ghost predicate Consistent(h: History, now: int) {
    && (forall i, j :: 0 <= i < j < |h.grants| ==> h.grants[i].until <= h.grants[j].from)
    && (forall i :: 0 <= i < |h.grants| ==> h.grants[i].from <= now)
    && (h.slot.Some? ==>
          && h.grants != []
          && var g := h.grants[|h.grants| - 1]; h.slot.value == Entry(g.token, g.until))
    && (h.slot.None? && h.grants != [] ==> h.grants[|h.grants| - 1].until <= now)
  }

  lemma StepIsConsistent(h: History, c: Call, before: int)
    requires Consistent(h, before) && before <= c.at
    ensures Consistent(Apply(h, c), c.at)
  {
  }

  lemma {:induction false} RunIsConsistent(calls: seq<Call>)
    requires InOrder(calls)
    ensures Consistent(Run(calls), if calls == [] then 0 else calls[|calls| - 1].at)
  {
    if calls != [] {
      var init := calls[..|calls| - 1];
      RunIsConsistent(init);
      var before := if init == [] then calls[0].at else init[|init| - 1].at;
      StepIsConsistent(Run(init), calls[|calls| - 1], before);
    }
  }

  /**
   At most one unexpired holder: in every run the periods over which any two grants were in
   force do not overlap, and a lock that is live now belongs to the latest grant.
  */
  lemma MutualExclusion(calls: seq<Call>, now: int)
    requires InOrder(calls) && (calls != [] ==> calls[|calls| - 1].at <= now)
    ensures var h := Run(calls);
            && (forall i, j :: 0 <= i < j < |h.grants| ==> h.grants[i].until <= h.grants[j].from)
            && (Lookup(h.slot, now).Some? ==>
                  && h.grants != []
                  && Lookup(h.slot, now).value == h.grants[|h.grants| - 1].token
                  && now <= h.grants[|h.grants| - 1].until)
  {
    RunIsConsistent(calls);
  }

  ghost predicate Drawn(calls: seq<Call>, token: nat) {
    exists k :: 0 <= k < |calls| && calls[k].Take? && calls[k].token == token
  }

  /** A call keeps the tokens of the grants so far, and adds at most one of its own. */
  lemma StepAddsGrant(h: History, c: Call)
    ensures var g, g' := h.grants, Apply(h, c).grants;
            && |g| <= |g'| <= |g| + 1 && (|g'| > |g| ==> c.Take? && g'[|g|].token == c.token)
            && forall i :: 0 <= i < |g| ==> g'[i].token == g[i].token
  {
  }

  /** Every grant carries a token some call has drawn, and no two grants the same one. */
  ghost predicate Genuine(calls: seq<Call>, g: seq<Grant>) {
    && (forall i :: 0 <= i < |g| ==> Drawn(calls, g[i].token))
    && (forall i, j :: 0 <= i < j < |g| ==> g[i].token != g[j].token)
  }

  lemma CallKeepsGenuine(init: seq<Call>, c: Call, g: seq<Grant>, g': seq<Grant>)
    requires Genuine(init, g) && DistinctTokens(init + [c])
    requires |g| <= |g'| <= |g| + 1 && (|g'| > |g| ==> c.Take? && g'[|g|].token == c.token)
    requires forall i :: 0 <= i < |g| ==> g'[i].token == g[i].token
    ensures Genuine(init + [c], g')
  {
    var calls := init + [c];
    forall i | 0 <= i < |g| ensures Drawn(calls, g[i].token) && (c.Take? ==> c.token != g[i].token) {
      var k :| 0 <= k < |init| && init[k].Take? && init[k].token == g[i].token;
      assert calls[k] == init[k] && calls[|init|] == c;
    }
    assert calls[|init|] == c;
  }

  /** When no two calls draw the same token, no two grants ever share one. */
  lemma {:induction false} GrantTokensDistinct(calls: seq<Call>)
    requires DistinctTokens(calls)
    ensures Genuine(calls, Run(calls).grants)
  {
    if calls != [] {
      var init, c := calls[..|calls| - 1], calls[|calls| - 1];
      GrantTokensDistinct(init);
      StepAddsGrant(Run(init), c);
      assert calls == init + [c];
      CallKeepsGenuine(init, c, Run(init).grants, Run(calls).grants);
    }
  }

  /** A stale release, by any but the latest holder, never frees the lock. */
  lemma StaleReleaseIsHarmless(calls: seq<Call>, at: int, g: nat)
    requires InOrder(calls) && DistinctTokens(calls)
    requires g + 1 < |Run(calls).grants|
    ensures Apply(Run(calls), Drop(at, g)) == Run(calls)
  {
    RunIsConsistent(calls);
    GrantTokensDistinct(calls);
  }
}
