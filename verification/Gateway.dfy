/**
 The `y-update` handler of `ws.gateway.ts`: rate limit, room check, deduplication by message id,
 ordering per user, size and validity checks, and the batch. Each message is handled atomically.
*/
module Gateway {
  import opened Common
  import opened Yjs
  import opened Redis
  import Batches
  import DocumentStore
  import WsRate

  const DEDUP_MS := 60_000
  const LASTSEQ_MS := 300_000

  /** What the handler needs to know of a message; `update` is missing when Yjs rejects the bytes. */
  datatype Msg = Msg(at: int, user: string, doc: string, wellFormed: bool, joined: bool,
                     msgId: Option<string>, seqNo: Option<int>, bytes: nat, update: Option<Doc>)

  datatype Outcome = RateLimited | Rejected | Duplicate | OutOfOrder | TooLarge | InvalidUpdate | Accepted

  datatype Config = Config(perSecond: nat, maxBytes: nat, batchMs: nat, idleMs: nat)

  /** The handler's keys: message counters, recent message ids per document, last number per document and user. */
  datatype Gate = Gate(rate: map<string, Counter>, ids: map<string, Entry<set<string>>>,
                       last: map<(string, string), Entry<int>>)

  function SlotOf<K, V>(m: map<K, Entry<V>>, k: K): Option<Entry<V>> {
    if k in m then Some(m[k]) else None
  }

  function CounterOf(g: Gate, user: string): Counter {
    var key := RateKey(user);
    if key in g.rate then g.rate[key] else ABSENT
  }

  function RateKey(user: string): string {
    WsRate.Key("user:" + user)
  }

  /** `SADD`, then `EXPIRE`: the set lives on from every message, repeated ones included. */
  function Remembered(g: Gate, m: Msg): Gate
    requires m.msgId.Some?
  {
    var known := Lookup(SlotOf(g.ids, m.doc), m.at);
    var members := if known.Some? then known.value else {};
    g.(ids := g.ids[m.doc := Entry(members + {m.msgId.value}, m.at + DEDUP_MS)])
  }

  predicate Known(g: Gate, m: Msg) {
    m.msgId.Some? && var known := Lookup(SlotOf(g.ids, m.doc), m.at); known.Some? && m.msgId.value in known.value
  }

  /** The number a message has to exceed. */
  function LastSeq(g: Gate, m: Msg): int {
    var last := Lookup(SlotOf(g.last, (m.doc, m.user)), m.at);
    if last.Some? then last.value else 0
  }

  function Advanced(g: Gate, m: Msg): Gate
    requires m.seqNo.Some?
  {
    g.(last := g.last[(m.doc, m.user) := Entry(m.seqNo.value, m.at + LASTSEQ_MS)])
  }

  function Handle(g: Gate, m: Msg, cfg: Config): (Gate, Outcome) {
    var c := CounterOf(g, m.user);
    var g1 := g.(rate := g.rate[RateKey(m.user) := WsRate.After(c, m.at)]);
    if !WsRate.Admits(c, WsRate.Arrive(m.at), cfg.perSecond) then (g1, RateLimited)
    else if !m.wellFormed || !m.joined then (g1, Rejected)
    else
      var g2 := if m.msgId.Some? then Remembered(g1, m) else g1;
      if Known(g1, m) then (g2, Duplicate)
      else if m.seqNo.Some? && m.seqNo.value <= LastSeq(g2, m) then (g2, OutOfOrder)
      else
        var g3 := if m.seqNo.Some? then Advanced(g2, m) else g2;
        (g3, if m.bytes > cfg.maxBytes then TooLarge else if m.update.None? then InvalidUpdate else Accepted)
  }

  class WsGateway {
    const cfg: Config
    const redis: CacheService<string>
    var ids: map<string, Entry<set<string>>>
    var last: map<(string, string), Entry<int>>
    var batches: Batches.Table

    constructor (cfg: Config, redis: CacheService<string>)
      ensures this.cfg == cfg && this.redis == redis
      ensures Value() == Gate(redis.counters, map[], map[]) && batches == map[]
    {
      this.cfg, this.redis := cfg, redis;
      ids, last, batches := map[], map[], map[];
    }

    function Value(): Gate
      reads this, redis
    {
      Gate(redis.counters, ids, last)
    }

    method OnYUpdate(m: Msg) returns (status: Outcome)
      modifies this`ids, this`last, this`batches, redis`counters
      ensures (Value(), status) == Handle(old(Value()), m, cfg)
      ensures batches ==
              if status.Accepted? then Batches.Enqueued(old(batches), m.doc, m.update.value, m.at, cfg.batchMs)
              else old(batches)
    {
      var allowed := WsRate.AllowWsMessage(redis, m.at, "user:" + m.user, cfg.perSecond);
      if !allowed {
        return RateLimited;
      }
      if !m.wellFormed || !m.joined {
        return Rejected;
      }
      if m.msgId.Some? {
        var repeated := AddId(m);
        if repeated {
          return Duplicate;
        }
      }
      if m.seqNo.Some? {
        var inOrder := AdvanceSeq(m);
        if !inOrder {
          return OutOfOrder;
        }
      }
      if m.bytes > cfg.maxBytes {
        return TooLarge;
      }
      if m.update.None? {
        return InvalidUpdate;
      }
      EnqueueUpdate(m.at, m.doc, m.update.value);
      status := Accepted;
    }

    method AddId(m: Msg) returns (repeated: bool)
      requires m.msgId.Some?
      modifies this`ids
      ensures Value() == Remembered(old(Value()), m) && repeated == Known(old(Value()), m)
    {
      var live := m.doc in ids && m.at <= ids[m.doc].expiresAt;
      var members := if live then ids[m.doc].value else {};
      ids := ids[m.doc := Entry(members + {m.msgId.value}, m.at + DEDUP_MS)];
      repeated := m.msgId.value in members;
    }

    method AdvanceSeq(m: Msg) returns (inOrder: bool)
      requires m.seqNo.Some?
      modifies this`last
      ensures inOrder == (LastSeq(old(Value()), m) < m.seqNo.value)
      ensures Value() == if inOrder then Advanced(old(Value()), m) else old(Value())
    {
      var key := (m.doc, m.user);
      var latest := if key in last && m.at <= last[key].expiresAt then last[key].value else 0;
      inOrder := latest < m.seqNo.value;
      if inOrder {
        last := last[key := Entry(m.seqNo.value, m.at + LASTSEQ_MS)];
      }
    }

    method EnqueueUpdate(now: int, doc: string, u: Doc)
      modifies this`batches
      ensures batches == Batches.Enqueued(old(batches), doc, u, now, cfg.batchMs)
    {
      var entry := if doc in batches then batches[doc] else Batches.Batch([], None, now);
      entry := entry.(updates := entry.updates + [u], last := now);
      if entry.timer.None? {
        entry := entry.(timer := Some(now + cfg.batchMs));
      }
      batches := batches[doc := entry];
    }

    /** The batch is emptied before the service is asked, so a refused batch is emitted to nobody. */
    method FlushDoc(now: int, doc: string, service: DocumentStore.DocumentsService, token: nat)
      returns (emitted: Option<Doc>)
      requires service.db.Valid()
      modifies this`batches, service.db, service.db.updates, service.lock, service.mem, service.cache
      ensures service.db.Valid()
      ensures batches == Batches.Flushed(old(batches), doc)
      ensures var u := JoinAll(old(Batches.Pending(batches, doc)));
              var r := DocumentStore.ApplyOutcome(
                old(service.db.Value()), old(service.lock.At(service.docKey)), Some(u), now, service.cfg);
              && emitted == (if old(Batches.Pending(batches, doc)) != [] && r.Ok? then Some(u) else None)
              && service.db.Value() == (if emitted.Some?
                                        then DocumentStore.Applied(old(service.db.Value()), u, service.cfg).value
                                        else old(service.db.Value()))
    {
      if doc !in batches {
        return None;
      }
      var updates := batches[doc].updates;
      batches := batches[doc := batches[doc].(updates := [], timer := None)];
      if updates == [] {
        return None;
      }
      var merged := JoinAll(updates);
      var r := service.ApplyYUpdate(now, Some(merged), token);
      emitted := if r.Ok? then Some(merged) else None;
    }

    method PruneIdle(now: int)
      modifies this`batches
      ensures batches == Batches.Pruned(old(batches), now, cfg.idleMs)
    {
      var docs := batches.Keys;
      while docs != {}
        invariant docs <= batches.Keys <= old(batches).Keys
        invariant forall d :: d in batches ==> batches[d] == old(batches)[d]
        invariant forall d :: d in old(batches) && d !in docs ==>
                    (d in batches <==> now - old(batches)[d].last <= cfg.idleMs)
      {
        var d :| d in docs;
        docs := docs - {d};
        if now - batches[d].last > cfg.idleMs {
          batches := batches - {d};
        }
      }
    }

    /**
     The answer brings a client that sent its vector exactly to its state joined with the served one, and repeats
     none of the insertions it has without a gap.
    */
    method OnYSync(served: Doc, vector: Option<Vector>) returns (update: Doc)
      ensures vector.None? ==> update == served
      ensures forall mine: Doc :: vector == Some(StateVector(mine)) ==> mine + update == mine + served
      ensures forall mine: Doc :: vector == Some(StateVector(mine)) && GapFree(mine) ==> Inserts(update) !! mine
      ensures update <= served
    {
      if vector.None? {
        return served;
      }
      update := EncodeSince(served, vector.value);
      forall mine: Doc | vector == Some(StateVector(mine)) ensures mine + update == mine + served {
        DiffCompletes(mine, served);
      }
      forall mine: Doc | vector == Some(StateVector(mine)) && GapFree(mine) ensures Inserts(update) !! mine {
        DiffIsMinimalIffGapFree(mine);
      }
    }
  }

  // ---------- Runs: which messages pass ----------

  /** The gate after the first `n` messages. */
  function After(ms: seq<Msg>, n: nat, cfg: Config): Gate
    requires n <= |ms|
  {
    if n == 0 then Gate(map[], map[], map[]) else Handle(After(ms, n - 1, cfg), ms[n - 1], cfg).0
  }

  function OutcomeOf(ms: seq<Msg>, n: nat, cfg: Config): Outcome
    requires n < |ms|
  {
    Handle(After(ms, n, cfg), ms[n], cfg).1
  }

  /** An id-bearing message that came as far as the deduplication of a document. */
  datatype Mark = Mark(at: int, id: string)

  predicate ReachedDedup(o: Outcome) {
    !o.RateLimited? && !o.Rejected?
  }

  /** Which of the messages reached the deduplication of document `d`, and with which id. */
  function Marks(ms: seq<Msg>, cfg: Config, d: string): seq<Option<Mark>> {
    seq(|ms|, i requires 0 <= i < |ms| =>
      if ms[i].doc == d && ms[i].msgId.Some? && ReachedDedup(OutcomeOf(ms, i, cfg))
      then Some(Mark(ms[i].at, ms[i].msgId.value)) else None)
  }

  /** When the latest of the first `n` marks was made. */
  function LastMark(t: seq<Option<Mark>>, n: nat): Option<int>
    requires n <= |t|
  {
    if n == 0 then None else if t[n - 1].Some? then Some(t[n - 1].value.at) else LastMark(t, n - 1)
  }

  /** Mark `n` ends a silence of more than 60 s. */
  predicate BreaksSilence(t: seq<Option<Mark>>, n: nat)
    requires n < |t|
  {
    t[n].Some? && LastMark(t, n).Some? && t[n].value.at - LastMark(t, n).value > DEDUP_MS
  }

  ghost predicate SeenAt(t: seq<Option<Mark>>, i: int, n: nat, x: string)
    requires n <= |t|
  {
    0 <= i < n && t[i].Some? && t[i].value.id == x && forall q :: i < q < n ==> !BreaksSilence(t, q)
  }

  /** The id `x` is among the first `n` marks, and no silence was broken since. */
  ghost predicate SeenRecently(t: seq<Option<Mark>>, n: nat, x: string)
    requires n <= |t|
  {
    exists i :: SeenAt(t, i, n, x)
  }

  lemma SeenGrows(t: seq<Option<Mark>>, n: nat, x: string)
    requires n < |t|
    ensures SeenRecently(t, n + 1, x) <==>
            (t[n].Some? && t[n].value.id == x) || (!BreaksSilence(t, n) && SeenRecently(t, n, x))
  {
    if t[n].Some? && t[n].value.id == x {
      assert SeenAt(t, n, n + 1, x);
    }
    if !BreaksSilence(t, n) && SeenRecently(t, n, x) {
      var i :| SeenAt(t, i, n, x);
      assert SeenAt(t, i, n + 1, x);
    }
    if SeenRecently(t, n + 1, x) && !(t[n].Some? && t[n].value.id == x) {
      var i :| SeenAt(t, i, n + 1, x);
      assert SeenAt(t, i, n, x);
    }
  }

  lemma {:induction false} NothingSeenYet(t: seq<Option<Mark>>, n: nat, x: string)
    requires n <= |t| && LastMark(t, n).None?
    ensures !SeenRecently(t, n, x)
  {
    if n > 0 {
      NothingSeenYet(t, n - 1, x);
      SeenGrows(t, n - 1, x);
    }
  }

  /** The stored id set is exactly the recently seen ids, and expires 60 s after the latest mark. */
  ghost predicate IdsMatch(slot: Option<Entry<set<string>>>, t: seq<Option<Mark>>, n: nat)
    requires n <= |t|
  {
    && (LastMark(t, n).None? ==> slot.None?)
    && (LastMark(t, n).Some? ==>
          && slot.Some? && slot.value.expiresAt == LastMark(t, n).value + DEDUP_MS
          && forall x :: x in slot.value.value <==> SeenRecently(t, n, x))
  }

  /** What one message does to the id set of a document. */
  lemma IdsStep(g: Gate, m: Msg, cfg: Config, d: string)
    ensures var (h, o) := Handle(g, m, cfg);
            SlotOf(h.ids, d) ==
              if m.doc == d && m.msgId.Some? && ReachedDedup(o) then SlotOf(Remembered(g, m).ids, d)
              else SlotOf(g.ids, d)
    ensures m.msgId.Some? && ReachedDedup(Handle(g, m, cfg).1) ==> (Handle(g, m, cfg).1.Duplicate? <==> Known(g, m))
  {
  }

  /** Remembering one more mark keeps the match. */
  lemma MatchStep(slot: Option<Entry<set<string>>>, next: Option<Entry<set<string>>>, t: seq<Option<Mark>>, n: nat)
    requires n < |t| && IdsMatch(slot, t, n)
    requires t[n].None? ==> next == slot
    requires t[n].Some? ==>
               var k, known := t[n].value, Lookup(slot, t[n].value.at);
               next == Some(Entry((if known.Some? then known.value else {}) + {k.id}, k.at + DEDUP_MS))
    ensures IdsMatch(next, t, n + 1)
  {
    forall x
      ensures next.Some? && LastMark(t, n + 1).Some? ==> (x in next.value.value <==> SeenRecently(t, n + 1, x))
    {
      SeenGrows(t, n, x);
      if LastMark(t, n).None? {
        NothingSeenYet(t, n, x);
      }
      if t[n].Some? {
        var known := Lookup(slot, t[n].value.at);
        assert known.Some? <==> LastMark(t, n).Some? && !BreaksSilence(t, n);
        assert known.Some? ==> (x in known.value <==> SeenRecently(t, n, x));
      }
    }
  }

  lemma {:induction false} IdsAreRecent(ms: seq<Msg>, n: nat, cfg: Config, d: string)
    requires n <= |ms|
    ensures IdsMatch(SlotOf(After(ms, n, cfg).ids, d), Marks(ms, cfg, d), n)
  {
    if n > 0 {
      IdsAreRecent(ms, n - 1, cfg, d);
      IdsStep(After(ms, n - 1, cfg), ms[n - 1], cfg, d);
      MatchStep(SlotOf(After(ms, n - 1, cfg).ids, d), SlotOf(After(ms, n, cfg).ids, d), Marks(ms, cfg, d), n - 1);
    }
  }

  /**
   A message that reaches deduplication passes it exactly when, since every earlier message with its id
   on the document, some silence of more than 60 s between id-bearing messages has been broken.
  */
  lemma DedupExact(ms: seq<Msg>, j: nat, cfg: Config)
    requires j < |ms| && ms[j].msgId.Some? && ReachedDedup(OutcomeOf(ms, j, cfg))
    ensures var t := Marks(ms, cfg, ms[j].doc);
            OutcomeOf(ms, j, cfg) != Duplicate <==>
              forall i :: 0 <= i < j && t[i].Some? && t[i].value.id == ms[j].msgId.value ==>
                exists q :: i < q <= j && BreaksSilence(t, q)
  {
    var t, x, d := Marks(ms, cfg, ms[j].doc), ms[j].msgId.value, ms[j].doc;
    IdsAreRecent(ms, j, cfg, d);
    IdsStep(After(ms, j, cfg), ms[j], cfg, d);
    KnownIff(SlotOf(After(ms, j, cfg).ids, d), t, j, x);
  }

  /** The id of mark `j` is in the live id set exactly when an earlier mark has it and no silence was broken since. */
  lemma KnownIff(slot: Option<Entry<set<string>>>, t: seq<Option<Mark>>, j: nat, x: string)
    requires j < |t| && t[j].Some? && t[j].value.id == x && IdsMatch(slot, t, j)
    ensures var known := Lookup(slot, t[j].value.at);
            !(known.Some? && x in known.value) <==>
              forall i :: 0 <= i < j && t[i].Some? && t[i].value.id == x ==>
                exists q :: i < q <= j && BreaksSilence(t, q)
  {
    if LastMark(t, j).None? {
      NothingSeenYet(t, j, x);
    }
    var known := Lookup(slot, t[j].value.at);
    assert known.Some? && x in known.value <==> !BreaksSilence(t, j) && SeenRecently(t, j, x);
    if SeenRecently(t, j, x) {
      var i :| SeenAt(t, i, j, x);
    } else {
      forall i | 0 <= i < j && t[i].Some? && t[i].value.id == x ensures exists q :: i < q <= j && BreaksSilence(t, q) {
        assert !SeenAt(t, i, j, x);
      }
    }
  }

  /** Message `n` of user `u` carries a number and passed the ordering check of document `d`. */
  predicate Passed(ms: seq<Msg>, n: nat, cfg: Config, d: string, u: string)
    requires n < |ms|
  {
    && ms[n].doc == d && ms[n].user == u && ms[n].seqNo.Some?
    && OutcomeOf(ms, n, cfg) in {TooLarge, InvalidUpdate, Accepted}
  }

  /** Time and number of the latest of the first `n` messages that passed. */
  function LastPassed(ms: seq<Msg>, n: nat, cfg: Config, d: string, u: string): Option<Entry<int>>
    requires n <= |ms|
  {
    if n == 0 then None
    else if Passed(ms, n - 1, cfg, d, u) then Some(Entry(ms[n - 1].seqNo.value, ms[n - 1].at + LASTSEQ_MS))
    else LastPassed(ms, n - 1, cfg, d, u)
  }

  lemma {:induction false} LastIsLastPassed(ms: seq<Msg>, n: nat, cfg: Config, d: string, u: string)
    requires n <= |ms|
    ensures SlotOf(After(ms, n, cfg).last, (d, u)) == LastPassed(ms, n, cfg, d, u)
  {
    if n > 0 {
      LastIsLastPassed(ms, n - 1, cfg, d, u);
    }
  }

  /** More than 300 s lie between passing message `n` and the one that passed before it. */
  predicate AfterLongPause(ms: seq<Msg>, n: nat, cfg: Config, d: string, u: string)
    requires n < |ms|
  {
    && Passed(ms, n, cfg, d, u)
    && var before := LastPassed(ms, n, cfg, d, u); before.Some? && ms[n].at > before.value.expiresAt
  }

  /**
   A numbered message that gets past deduplication is refused exactly when its number does not exceed
   the one its user passed with last, or 0 if that was more than 300 s ago or never.
  */
  lemma OrderExact(ms: seq<Msg>, n: nat, cfg: Config)
    requires n < |ms| && ms[n].seqNo.Some?
    requires ReachedDedup(OutcomeOf(ms, n, cfg)) && OutcomeOf(ms, n, cfg) != Duplicate
    ensures var latest := Lookup(LastPassed(ms, n, cfg, ms[n].doc, ms[n].user), ms[n].at);
            OutcomeOf(ms, n, cfg) == OutOfOrder <==> ms[n].seqNo.value <= if latest.Some? then latest.value else 0
  {
    LastIsLastPassed(ms, n, cfg, ms[n].doc, ms[n].user);
  }

  lemma PassedExceedsLast(ms: seq<Msg>, n: nat, cfg: Config, d: string, u: string)
    requires n < |ms| && Passed(ms, n, cfg, d, u) && !AfterLongPause(ms, n, cfg, d, u)
    ensures var before := LastPassed(ms, n, cfg, d, u); before.Some? ==> before.value.value < ms[n].seqNo.value
  {
    LastIsLastPassed(ms, n, cfg, d, u);
  }

  /** Without a long pause after message `i`, everything that passes later is numbered above it. */
  lemma {:induction false} NumbersIncrease(ms: seq<Msg>, i: nat, n: nat, cfg: Config, d: string, u: string)
    requires i < n <= |ms| && Passed(ms, i, cfg, d, u)
    requires forall q :: i < q < n ==> !AfterLongPause(ms, q, cfg, d, u)
    ensures LastPassed(ms, n, cfg, d, u).Some? && ms[i].seqNo.value <= LastPassed(ms, n, cfg, d, u).value.value
    ensures forall j :: i < j < n && Passed(ms, j, cfg, d, u) ==> ms[i].seqNo.value < ms[j].seqNo.value
  {
    if i + 1 < n {
      NumbersIncrease(ms, i, n - 1, cfg, d, u);
      if Passed(ms, n - 1, cfg, d, u) {
        PassedExceedsLast(ms, n - 1, cfg, d, u);
      }
    }
  }

  /**
   One user's passing numbers fail to increase only across a pause of more than 300 s between two
   consecutive passing messages.
  */
  lemma NumbersFailOnlyAfterPause(ms: seq<Msg>, i: nat, j: nat, cfg: Config, d: string, u: string)
    requires i < j < |ms| && Passed(ms, i, cfg, d, u) && Passed(ms, j, cfg, d, u)
    requires ms[j].seqNo.value <= ms[i].seqNo.value
    ensures exists q :: i < q <= j && AfterLongPause(ms, q, cfg, d, u)
  {
    if forall q :: i < q < j + 1 ==> !AfterLongPause(ms, q, cfg, d, u) {
      NumbersIncrease(ms, i, j + 1, cfg, d, u);
    }
  }

  /**
   An orderly sender is never refused as a duplicate or as out of order: ids are distinct on the
   document, and the user's numbers are positive and strictly increase.
  */
  lemma OrderlyStreamPasses(ms: seq<Msg>, n: nat, cfg: Config, d: string, u: string)
    requires n < |ms| && ms[n].doc == d && ms[n].user == u && ms[n].seqNo.Some?
    requires forall i :: 0 <= i < n && ms[i].doc == d && ms[i].msgId.Some? ==> ms[i].msgId != ms[n].msgId
    requires 0 < ms[n].seqNo.value
    requires forall i :: 0 <= i < n && ms[i].doc == d && ms[i].user == u && ms[i].seqNo.Some? ==>
               ms[i].seqNo.value < ms[n].seqNo.value
    ensures OutcomeOf(ms, n, cfg) != Duplicate && OutcomeOf(ms, n, cfg) != OutOfOrder
  {
    LastIsLastPassed(ms, n, cfg, d, u);
    LastPassedIsEarlier(ms, n, cfg, d, u);
    if ms[n].msgId.Some? && ReachedDedup(OutcomeOf(ms, n, cfg)) {
      DedupExact(ms, n, cfg);
    }
  }

  lemma {:induction false} LastPassedIsEarlier(ms: seq<Msg>, n: nat, cfg: Config, d: string, u: string)
    requires n <= |ms|
    ensures var last := LastPassed(ms, n, cfg, d, u);
            last.Some? ==> exists i :: 0 <= i < n && Passed(ms, i, cfg, d, u) && ms[i].seqNo.value == last.value.value
  {
    if n > 0 && !Passed(ms, n - 1, cfg, d, u) {
      LastPassedIsEarlier(ms, n - 1, cfg, d, u);
    }
  }
}
