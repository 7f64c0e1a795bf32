/** The fixed-window message limiter of `ws-rate.ts`. */
module WsRate {
  import opened Common
  import opened Redis

  const WINDOW := 1000

  method AllowWsMessage(redis: CacheService<string>, now: int, keyId: string, limit: nat) returns (allowed: bool)
    modifies redis`counters
    ensures redis.counters == old(redis.counters)[Key(keyId) := After(old(redis.CounterAt(Key(keyId))), now)]
    ensures allowed == Admits(old(redis.CounterAt(Key(keyId))), Arrive(now), limit)
  {
    var val := redis.Increment(now, Key(keyId), Some(1));
    allowed := val <= limit;
  }

  function Key(keyId: string): string {
    "ws:" + keyId + ":1s"
  }

  /** The two commands one call issues, when nothing comes between them. */
  function After(c: Counter, now: int): Counter {
    var next := Step(c, Arrive(now));
    if next.count == 1 then Step(next, Expiry(now)) else next
  }

  /**
   The commands as they reach Redis. `EXPIRE` is a separate command that only the arrival that
   created the counter issues, so it may come late but always finds a counter without expiry.
  */
  datatype Event = Arrive(at: int) | Expiry(at: int)

  function Step(c: Counter, e: Event): Counter {
    match e
    case Arrive(at) => Incr(c, at)
    case Expiry(at) => if c.expiresAt.None? then Expire(c, at + WINDOW) else c
  }

  predicate Admits(c: Counter, e: Event, limit: nat) {
    e.Arrive? && Incr(c, e.at).count <= limit
  }

  /** Times never decrease, and none is before `now`. */
  ghost predicate InOrder(now: int, es: seq<Event>)
    decreases es
  {
    es == [] || (now <= es[0].at && InOrder(es[0].at, es[1..]))
  }

  /** Messages admitted in the half-open interval of one window length from `a`. */
  ghost function AdmittedIn(c: Counter, es: seq<Event>, limit: nat, a: int): nat
    decreases es
  {
    if es == [] then 0 else
      (if Admits(c, es[0], limit) && a <= es[0].at < a + WINDOW then 1 else 0)
      + AdmittedIn(Step(c, es[0]), es[1..], limit, a)
  }

  /** Messages admitted before the counter that is live now expires. */
  ghost function AdmittedByCounter(c: Counter, es: seq<Event>, limit: nat): nat
    decreases es
  {
    if es == [] || Gone(c, es[0].at) then 0 else
      (if Admits(c, es[0], limit) then 1 else 0) + AdmittedByCounter(Step(c, es[0]), es[1..], limit)
  }

  function Left(c: Counter, limit: nat): nat {
    if c.count < limit then limit - c.count else 0
  }

  /** One counter admits at most `limit` messages in its life. */
  lemma {:induction false} WindowBound(c: Counter, es: seq<Event>, limit: nat)
    ensures AdmittedByCounter(c, es, limit) <= Left(c, limit)
    decreases es
  {
    if es != [] && !Gone(c, es[0].at) {
      WindowBound(Step(c, es[0]), es[1..], limit);
    }
  }

  lemma {:induction false} NothingAfterEnd(c: Counter, es: seq<Event>, limit: nat, a: int, now: int)
    requires InOrder(now, es) && a + WINDOW <= now
    ensures AdmittedIn(c, es, limit, a) == 0
    decreases es
  {
    if es != [] {
      NothingAfterEnd(Step(c, es[0]), es[1..], limit, a, es[0].at);
    }
  }

  /** A counter that cannot expire inside the interval admits only what it has left. */
  lemma {:induction false} OneCounter(c: Counter, es: seq<Event>, limit: nat, a: int, now: int)
    requires InOrder(now, es) && a <= now && 1 <= c.count
    requires c.expiresAt.Some? ==> a + WINDOW - 1 <= c.expiresAt.value
    ensures AdmittedIn(c, es, limit, a) <= Left(c, limit)
    decreases es
  {
    if es != [] {
      var next := Step(c, es[0]);
      if a + WINDOW <= es[0].at {
        NothingAfterEnd(next, es[1..], limit, a, es[0].at);
      } else {
        OneCounter(next, es[1..], limit, a, es[0].at);
      }
    }
  }

  /** Inside the interval at most one further counter is created. */
  lemma {:induction false} AtMostOneMore(c: Counter, es: seq<Event>, limit: nat, a: int, now: int)
    requires InOrder(now, es) && a <= now
    ensures AdmittedIn(c, es, limit, a) <= (if c.count == 0 then limit else Left(c, limit) + limit)
    decreases es
  {
    if es != [] {
      var next := Step(c, es[0]);
      if es[0].Arrive? && Gone(c, es[0].at) {
        OneCounter(next, es[1..], limit, a, es[0].at);
      } else {
        AtMostOneMore(next, es[1..], limit, a, es[0].at);
      }
    }
  }

  /**
   However messages arrive, and however late the `EXPIRE` commands are, any half-open interval of
   one window length admits at most `2 * limit - 1` messages, and none when the limit is 0.
  */
  lemma {:induction false} IntervalBound(c: Counter, es: seq<Event>, limit: nat, a: int, now: int)
    requires InOrder(now, es)
    ensures AdmittedIn(c, es, limit, a) <= if limit == 0 then 0 else 2 * limit - 1
    decreases es
  {
    if es != [] {
      if a <= es[0].at {
        AtMostOneMore(c, es, limit, a, es[0].at);
      } else {
        IntervalBound(Step(c, es[0]), es[1..], limit, a, es[0].at);
      }
    }
  }

  ghost function Burst(at: int, n: nat): seq<Event> {
    if n == 0 then [] else [Arrive(at)] + Burst(at, n - 1)
  }

  lemma {:induction false} BurstInOrder(at: int, n: nat, rest: seq<Event>, now: int)
    requires now <= at && InOrder(at, rest)
    ensures InOrder(now, Burst(at, n) + rest)
  {
    if n == 0 {
      assert Burst(at, n) + rest == rest;
    } else {
      BurstInOrder(at, n - 1, rest, at);
      assert (Burst(at, n) + rest)[1..] == Burst(at, n - 1) + rest;
    }
  }

  lemma {:induction false} BurstAdmitted(c: Counter, at: int, n: nat, rest: seq<Event>, limit: nat, a: int)
    requires !Gone(c, at) && c.count + n <= limit && a <= at < a + WINDOW
    ensures AdmittedIn(c, Burst(at, n) + rest, limit, a)
            == n + AdmittedIn(Counter(c.count + n, c.expiresAt), rest, limit, a)
    decreases n
  {
    if n == 0 {
      assert Burst(at, n) + rest == rest;
    } else {
      BurstAdmitted(Step(c, Arrive(at)), at, n - 1, rest, limit, a);
      assert (Burst(at, n) + rest)[1..] == Burst(at, n - 1) + rest;
    }
  }

  /** A full window of messages, the first of which finds the counter gone. */
  lemma NextWindow(limit: nat) returns (es: seq<Event>)
    requires 1 <= limit
    ensures InOrder(WINDOW, es) && AdmittedIn(Counter(limit, Some(WINDOW)), es, limit, WINDOW) == limit
  {
    var burst := Burst(WINDOW + 1, limit - 1);
    es := [Arrive(WINDOW + 1)] + burst;
    assert burst + [] == burst && es[1..] == burst;
    BurstInOrder(WINDOW + 1, limit - 1, [], WINDOW + 1);
    BurstAdmitted(Counter(1, None), WINDOW + 1, limit - 1, [], limit, WINDOW);
  }

  /** The bound is reached: one message opens a window, the others straddle its end. */
  lemma IntervalBoundIsTight(limit: nat) returns (es: seq<Event>)
    requires 1 <= limit
    ensures InOrder(0, es) && AdmittedIn(ABSENT, es, limit, WINDOW) == 2 * limit - 1
  {
    var last := NextWindow(limit);
    var tail := Burst(WINDOW, limit - 1) + last;
    es := [Arrive(0), Expiry(0)] + tail;
    var c := Counter(1, Some(WINDOW));
    assert es[1..][1..] == tail && es[1..] == [Expiry(0)] + tail;
    BurstInOrder(WINDOW, limit - 1, last, 0);
    BurstAdmitted(c, WINDOW, limit - 1, last, limit, WINDOW);
  }

  /** Whatever is stored and however messages arrive from `now` on, no second admits more than the limit. */
  ghost predicate AtMostLimit(limit: nat, now: int) {
    forall c, es, a :: InOrder(now, es) ==> AdmittedIn(c, es, limit, a) <= limit
  }

  /** What the limiter's comment promises holds exactly for limits of at most 1. */
  lemma AtMostLimitIff(limit: nat)
    ensures AtMostLimit(limit, 0) <==> limit <= 1
  {
    if limit <= 1 {
      forall c, es, a | InOrder(0, es) ensures AdmittedIn(c, es, limit, a) <= limit {
        IntervalBound(c, es, limit, a, 0);
      }
    } else {
      var es := IntervalBoundIsTight(limit);
      assert AdmittedIn(ABSENT, es, limit, WINDOW) > limit;
    }
  }

  // ---------- Whole calls ----------

  /** The counter after calls of `AllowWsMessage` at the given times. */
  function Called(calls: seq<int>): Counter {
    if calls == [] then ABSENT else After(Called(calls[..|calls| - 1]), calls[|calls| - 1])
  }

  lemma CalledSnoc(calls: seq<int>, at: int)
    ensures Called(calls + [at]) == After(Called(calls), at)
  {
    assert (calls + [at])[..|calls|] == calls;
  }

  /** How many of the calls were made at `from` or later. */
  function Since(calls: seq<int>, from: int): nat {
    if calls == [] then 0 else Since(calls[..|calls| - 1], from) + if from <= calls[|calls| - 1] then 1 else 0
  }

  ghost predicate Ordered(calls: seq<int>) {
    forall i, j :: 0 <= i < j < |calls| ==> calls[i] <= calls[j]
  }

  /** The counter expires one window after its first call, and has counted no more than the calls since then. */
  lemma {:induction false} CounterIsRecent(calls: seq<int>)
    requires Ordered(calls)
    ensures var c := Called(calls);
            calls != [] ==>
              && c.count >= 1 && c.expiresAt.Some? && c.expiresAt.value <= calls[|calls| - 1] + WINDOW
              && c.count <= Since(calls, c.expiresAt.value - WINDOW)
  {
    if calls != [] {
      var init := calls[..|calls| - 1];
      CounterIsRecent(init);
    }
  }

  lemma {:induction false} SinceShrinks(calls: seq<int>, from: int, later: int)
    requires from <= later
    ensures Since(calls, later) <= Since(calls, from)
  {
    if calls != [] {
      SinceShrinks(calls[..|calls| - 1], from, later);
    }
  }

  /** Whoever made fewer calls than the limit within the window before `now` is admitted. */
  lemma ModestCallerIsAdmitted(calls: seq<int>, now: int, limit: nat)
    requires Ordered(calls) && Since(calls, now - WINDOW) < limit
    ensures Admits(Called(calls), Arrive(now), limit)
  {
    CounterIsRecent(calls);
    var c := Called(calls);
    if calls != [] && !Gone(c, now) {
      SinceShrinks(calls, now - WINDOW, c.expiresAt.value - WINDOW);
    }
  }

  lemma {:induction false} SilentSince(calls: seq<int>, from: int)
    requires forall i :: 0 <= i < |calls| ==> calls[i] < from
    ensures Since(calls, from) == 0
  {
    if calls != [] {
      SilentSince(calls[..|calls| - 1], from);
    }
  }

  /** A caller silent for more than a window finds the counter gone, starts a new one, and is admitted. */
  lemma SilentCallerIsAdmitted(calls: seq<int>, now: int, limit: nat)
    requires Ordered(calls) && (forall i :: 0 <= i < |calls| ==> calls[i] < now - WINDOW) && 1 <= limit
    ensures Gone(Called(calls), now) && Admits(Called(calls), Arrive(now), limit)
    ensures After(Called(calls), now) == Counter(1, Some(now + WINDOW))
  {
    CounterIsRecent(calls);
    SilentSince(calls, now - WINDOW);
    ModestCallerIsAdmitted(calls, now, limit);
  }

  /** The commands that calls issue, one call after the other. */
  function Commands(calls: seq<int>): seq<Event> {
    if calls == [] then [] else
      Commands(calls[..|calls| - 1]) + [Arrive(calls[|calls| - 1])] + [Expiry(calls[|calls| - 1])]
  }

  function Folded(c: Counter, es: seq<Event>): Counter
    decreases es
  {
    if es == [] then c else Folded(Step(c, es[0]), es[1..])
  }

  lemma {:induction false} EventSnoc(c: Counter, es: seq<Event>, e: Event, limit: nat, a: int)
    ensures Folded(c, es + [e]) == Step(Folded(c, es), e)
    ensures AdmittedIn(c, es + [e], limit, a) ==
            AdmittedIn(c, es, limit, a) + if Admits(Folded(c, es), e, limit) && a <= e.at < a + WINDOW then 1 else 0
    decreases es
  {
    if es == [] {
      assert es + [e] == [e] && [e][1..] == [];
    } else {
      assert (es + [e])[1..] == es[1..] + [e];
      EventSnoc(Step(c, es[0]), es[1..], e, limit, a);
    }
  }

  lemma {:induction false} OrderSnoc(now: int, es: seq<Event>, e: Event)
    requires InOrder(now, es) && now <= e.at && (es != [] ==> es[|es| - 1].at <= e.at)
    ensures InOrder(now, es + [e])
    decreases es
  {
    if es != [] {
      assert (es + [e])[1..] == es[1..] + [e];
      OrderIsBelow(es[0].at, es[1..]);
      OrderSnoc(es[0].at, es[1..], e);
    }
  }

  lemma {:induction false} OrderIsBelow(now: int, es: seq<Event>)
    requires InOrder(now, es)
    ensures es != [] ==> now <= es[|es| - 1].at
    decreases es
  {
    if es != [] {
      OrderIsBelow(es[0].at, es[1..]);
    }
  }

  /** Calls admitted in the half-open interval of one window length from `a`. */
  ghost function AdmittedCalls(calls: seq<int>, limit: nat, a: int): nat {
    if calls == [] then 0 else
      var init, at := calls[..|calls| - 1], calls[|calls| - 1];
      AdmittedCalls(init, limit, a) + if Admits(Called(init), Arrive(at), limit) && a <= at < a + WINDOW then 1 else 0
  }

  lemma AdmittedSnoc(calls: seq<int>, at: int, limit: nat, a: int)
    ensures AdmittedCalls(calls + [at], limit, a) ==
            AdmittedCalls(calls, limit, a)
            + if Admits(Called(calls), Arrive(at), limit) && a <= at < a + WINDOW then 1 else 0
  {
    assert (calls + [at])[..|calls|] == calls;
  }

  lemma {:induction false} CallsAreCommands(calls: seq<int>, limit: nat, a: int)
    requires Ordered(calls)
    ensures Called(calls) == Folded(ABSENT, Commands(calls))
    ensures AdmittedCalls(calls, limit, a) == AdmittedIn(ABSENT, Commands(calls), limit, a)
    ensures calls != [] ==>
              Commands(calls)[|Commands(calls)| - 1].at == calls[|calls| - 1] && InOrder(calls[0], Commands(calls))
  {
    if calls != [] {
      var init, at := calls[..|calls| - 1], calls[|calls| - 1];
      CallsAreCommands(init, limit, a);
      CounterIsRecent(init);
      var es := Commands(init);
      EventSnoc(ABSENT, es, Arrive(at), limit, a);
      EventSnoc(ABSENT, es + [Arrive(at)], Expiry(at), limit, a);
      OrderSnoc(calls[0], es, Arrive(at));
      OrderSnoc(calls[0], es + [Arrive(at)], Expiry(at));
    }
  }

  /** So the bound holds of whole calls. */
  lemma CallsBound(calls: seq<int>, limit: nat, a: int)
    requires Ordered(calls)
    ensures AdmittedCalls(calls, limit, a) <= if limit == 0 then 0 else 2 * limit - 1
  {
    CallsAreCommands(calls, limit, a);
    if calls != [] {
      IntervalBound(ABSENT, Commands(calls), limit, a, calls[0]);
    }
  }
}
