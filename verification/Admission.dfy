/**
 Over whole streams of messages: whom the limiter of the gateway lets through, which messages are accepted, and
 what the batches then hold.
*/
module Admission {
  import opened Common
  import opened Yjs
  import opened Redis
  import opened Gateway
  import Batches
  import WsRate

  /** When user `u` sent the first `n` messages that are the user's. */
  function CallsOf(ms: seq<Msg>, n: nat, u: string): seq<int>
    requires n <= |ms|
  {
    if n == 0 then []
    else CallsOf(ms, n - 1, u) + if ms[n - 1].user == u then [ms[n - 1].at] else []
  }

  lemma KeysDiffer(u: string, v: string)
    ensures RateKey(u) == RateKey(v) <==> u == v
  {
    var pre, post := "ws:" + "user:", ":1s";
    assert RateKey(u) == pre + u + post && RateKey(v) == pre + v + post;
    if RateKey(u) == RateKey(v) {
      assert |u| == |v|;
      assert u == RateKey(u)[|pre|..|pre| + |u|] && v == RateKey(v)[|pre|..|pre| + |v|];
    }
  }

  /** What one message does to the counters: it counts for its own user alone, whatever becomes of it. */
  lemma RateStep(g: Gate, m: Msg, cfg: Config, u: string)
    ensures CounterOf(Handle(g, m, cfg).0, u) ==
            if m.user == u then WsRate.After(CounterOf(g, u), m.at) else CounterOf(g, u)
    ensures Handle(g, m, cfg).1.RateLimited? <==>
            !WsRate.Admits(CounterOf(g, m.user), WsRate.Arrive(m.at), cfg.perSecond)
  {
    KeysDiffer(u, m.user);
  }

  lemma CallsStep(ms: seq<Msg>, n: nat, u: string)
    requires 0 < n <= |ms|
    ensures CallsOf(ms, n, u) ==
            if ms[n - 1].user == u then CallsOf(ms, n - 1, u) + [ms[n - 1].at] else CallsOf(ms, n - 1, u)
  {
  }

  lemma {:induction false} CounterIsOwnCalls(ms: seq<Msg>, n: nat, cfg: Config, u: string)
    requires n <= |ms|
    ensures CounterOf(After(ms, n, cfg), u) == WsRate.Called(CallsOf(ms, n, u))
  {
    if n > 0 {
      CounterIsOwnCalls(ms, n - 1, cfg, u);
      RateStep(After(ms, n - 1, cfg), ms[n - 1], cfg, u);
      CallsStep(ms, n, u);
      WsRate.CalledSnoc(CallsOf(ms, n - 1, u), ms[n - 1].at);
    }
  }

  /** Times do not decrease. */
  ghost predicate Timed(ms: seq<Msg>) {
    forall i, j :: 0 <= i < j < |ms| ==> ms[i].at <= ms[j].at
  }

  lemma {:induction false} CallsAreOrdered(ms: seq<Msg>, n: nat, u: string)
    requires n <= |ms| && Timed(ms)
    ensures WsRate.Ordered(CallsOf(ms, n, u))
    ensures n > 0 ==> forall i :: 0 <= i < |CallsOf(ms, n, u)| ==> CallsOf(ms, n, u)[i] <= ms[n - 1].at
  {
    if n > 0 {
      CallsAreOrdered(ms, n - 1, u);
      CallsStep(ms, n, u);
    }
  }

  lemma {:induction false} CallsAreBefore(ms: seq<Msg>, n: nat, u: string, from: int)
    requires n <= |ms| && forall i :: 0 <= i < n && ms[i].user == u ==> ms[i].at < from
    ensures forall i :: 0 <= i < |CallsOf(ms, n, u)| ==> CallsOf(ms, n, u)[i] < from
  {
    if n > 0 {
      CallsAreBefore(ms, n - 1, u, from);
      CallsStep(ms, n, u);
    }
  }

  /** Exactly the user's own messages decide whether a message is rate limited. */
  lemma RateLimitedIff(ms: seq<Msg>, n: nat, cfg: Config)
    requires n < |ms|
    ensures OutcomeOf(ms, n, cfg) == RateLimited <==>
            !WsRate.Admits(WsRate.Called(CallsOf(ms, n, ms[n].user)), WsRate.Arrive(ms[n].at), cfg.perSecond)
  {
    CounterIsOwnCalls(ms, n, cfg, ms[n].user);
    RateStep(After(ms, n, cfg), ms[n], cfg, ms[n].user);
  }

  /** A user with fewer messages than the limit in the second before is not limited, whatever others send. */
  lemma ModestUserIsServed(ms: seq<Msg>, n: nat, cfg: Config)
    requires n < |ms| && Timed(ms)
    requires WsRate.Since(CallsOf(ms, n, ms[n].user), ms[n].at - WsRate.WINDOW) < cfg.perSecond
    ensures OutcomeOf(ms, n, cfg) != RateLimited
  {
    CallsAreOrdered(ms, n, ms[n].user);
    RateLimitedIff(ms, n, cfg);
    WsRate.ModestCallerIsAdmitted(CallsOf(ms, n, ms[n].user), ms[n].at, cfg.perSecond);
  }

  /** In particular a user silent for more than a second, however often the user was limited before. */
  lemma SilentUserIsServed(ms: seq<Msg>, n: nat, cfg: Config)
    requires n < |ms| && Timed(ms) && 1 <= cfg.perSecond
    requires forall i :: 0 <= i < n && ms[i].user == ms[n].user ==> ms[i].at < ms[n].at - WsRate.WINDOW
    ensures OutcomeOf(ms, n, cfg) != RateLimited
  {
    CallsAreBefore(ms, n, ms[n].user, ms[n].at - WsRate.WINDOW);
    WsRate.SilentSince(CallsOf(ms, n, ms[n].user), ms[n].at - WsRate.WINDOW);
    ModestUserIsServed(ms, n, cfg);
  }

  /** The user's messages among the first `n` that were not limited in the second from `a`. */
  ghost function ServedOf(ms: seq<Msg>, n: nat, cfg: Config, u: string, a: int): nat
    requires n <= |ms|
  {
    if n == 0 then 0 else
      ServedOf(ms, n - 1, cfg, u, a)
      + if ms[n - 1].user == u && OutcomeOf(ms, n - 1, cfg) != RateLimited && a <= ms[n - 1].at < a + WsRate.WINDOW
        then 1 else 0
  }

  lemma {:induction false} ServedAreAdmitted(ms: seq<Msg>, n: nat, cfg: Config, u: string, a: int)
    requires n <= |ms|
    ensures ServedOf(ms, n, cfg, u, a) == WsRate.AdmittedCalls(CallsOf(ms, n, u), cfg.perSecond, a)
  {
    if n > 0 {
      ServedAreAdmitted(ms, n - 1, cfg, u, a);
      RateLimitedIff(ms, n - 1, cfg);
      CallsStep(ms, n, u);
      WsRate.CalledSnoc(CallsOf(ms, n - 1, u), ms[n - 1].at);
      WsRate.AdmittedSnoc(CallsOf(ms, n - 1, u), ms[n - 1].at, cfg.perSecond, a);
    }
  }

  /** In any stream, whatever others send, at most `2N - 1` messages of a user get past the limiter in any second. */
  lemma UserIsBounded(ms: seq<Msg>, n: nat, cfg: Config, u: string, a: int)
    requires n <= |ms| && Timed(ms)
    ensures ServedOf(ms, n, cfg, u, a) <= if cfg.perSecond == 0 then 0 else 2 * cfg.perSecond - 1
  {
    ServedAreAdmitted(ms, n, cfg, u, a);
    CallsAreOrdered(ms, n, u);
    WsRate.CallsBound(CallsOf(ms, n, u), cfg.perSecond, a);
  }

  /**
   What becomes of a message that the limiter lets through: it is rejected exactly when it is malformed or not from
   the room, and past deduplication and ordering it is accepted exactly when it is within the size and valid.
  */
  lemma OutcomeIff(ms: seq<Msg>, n: nat, cfg: Config)
    requires n < |ms| && OutcomeOf(ms, n, cfg) != RateLimited
    ensures var o := OutcomeOf(ms, n, cfg);
            && (o == Rejected <==> !ms[n].wellFormed || !ms[n].joined)
            && (o in {TooLarge, InvalidUpdate, Accepted} ==>
                  && (o == Accepted <==> ms[n].bytes <= cfg.maxBytes && ms[n].update.Some?)
                  && (o == TooLarge <==> cfg.maxBytes < ms[n].bytes))
  {
  }

  /**
   A joined, orderly sender within the rate and the size is accepted: ids are fresh on the document, and the user's
   numbers are positive and strictly increase.
  */
  lemma OrderlySenderIsAccepted(ms: seq<Msg>, n: nat, cfg: Config)
    requires n < |ms| && Timed(ms) && ms[n].wellFormed && ms[n].joined && ms[n].seqNo.Some?
    requires WsRate.Since(CallsOf(ms, n, ms[n].user), ms[n].at - WsRate.WINDOW) < cfg.perSecond
    requires ms[n].bytes <= cfg.maxBytes && ms[n].update.Some? && 0 < ms[n].seqNo.value
    requires forall i :: 0 <= i < n && ms[i].doc == ms[n].doc && ms[i].msgId.Some? ==> ms[i].msgId != ms[n].msgId
    requires forall i :: 0 <= i < n && ms[i].doc == ms[n].doc && ms[i].user == ms[n].user && ms[i].seqNo.Some? ==>
               ms[i].seqNo.value < ms[n].seqNo.value
    ensures OutcomeOf(ms, n, cfg) == Accepted
  {
    ModestUserIsServed(ms, n, cfg);
    OrderlyStreamPasses(ms, n, cfg, ms[n].doc, ms[n].user);
    OutcomeIff(ms, n, cfg);
  }

  /** The batches after the first `n` messages, with nothing flushed in between. */
  function BatchesAfter(ms: seq<Msg>, n: nat, cfg: Config): Batches.Table
    requires n <= |ms|
  {
    if n == 0 then map[] else
      var m, b := ms[n - 1], BatchesAfter(ms, n - 1, cfg);
      if OutcomeOf(ms, n - 1, cfg) == Accepted && m.update.Some?
      then Batches.Enqueued(b, m.doc, m.update.value, m.at, cfg.batchMs) else b
  }

  /** The accepted updates of document `d` among the first `n` messages. */
  ghost function AcceptedOf(ms: seq<Msg>, n: nat, cfg: Config, d: string): seq<Doc>
    requires n <= |ms|
  {
    if n == 0 then [] else
      AcceptedOf(ms, n - 1, cfg, d)
      + if ms[n - 1].doc == d && OutcomeOf(ms, n - 1, cfg) == Accepted && ms[n - 1].update.Some?
        then [ms[n - 1].update.value] else []
  }

  /** Until a flush, the batch of a document holds exactly its accepted updates in order. */
  lemma {:induction false} BatchHoldsAccepted(ms: seq<Msg>, n: nat, cfg: Config, d: string)
    requires n <= |ms|
    ensures Batches.Pending(BatchesAfter(ms, n, cfg), d) == AcceptedOf(ms, n, cfg, d)
  {
    if n > 0 {
      BatchHoldsAccepted(ms, n - 1, cfg, d);
    }
  }

  /** The update of an orderly sender is the last one pending. */
  lemma OrderlySenderIsBatched(ms: seq<Msg>, n: nat, cfg: Config)
    requires n < |ms| && OutcomeOf(ms, n, cfg) == Accepted
    ensures ms[n].update.Some?
    ensures var p := Batches.Pending(BatchesAfter(ms, n + 1, cfg), ms[n].doc);
            p != [] && p[|p| - 1] == ms[n].update.value
  {
    OutcomeIff(ms, n, cfg);
    BatchHoldsAccepted(ms, n + 1, cfg, ms[n].doc);
  }
}
