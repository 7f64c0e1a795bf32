/**
 Several API processes serving one document: each has its own memory cache, and they share the
 Redis copy and the database. Every service call and every job run is one atomic step.
*/
module Cluster {
  import opened Common
  import opened Yjs
  import opened Redis
  import UpdateLog
  import opened DocumentStore

  /** What the database served from `since` on, until the next version. */
  datatype Version = Version(since: int, view: Result<Served, Error>)

  /** `owner` is the process whose write, rollback or repair was the latest change of the content. */
  datatype State = State(now: int, db: Db, redis: CacheSlot, mems: map<nat, Redis.Entry<Served>>,
                         history: seq<Version>, owner: Option<nat>)

  /** `kept` says whether the memory cache still holds an entry it was just given. */
  datatype Action =
    | Tick(ms: nat)
    | Read(proc: nat, kept: bool)
    | Write(proc: nat, update: Doc, kept: bool)
    | Rollback(proc: nat, id: nat)
    | Repair(proc: nat, kept: bool)
    | ManualSnapshot
    | SnapshotJob
    | CompactJob
    | Evict(proc: nat)
    | Damage(content: Content)

  function CachesOf(s: State, proc: nat): Caches {
    Caches(if proc in s.mems then Some(s.mems[proc]) else None, s.redis)
  }

  function WithCaches(s: State, proc: nat, c: Caches, kept: bool): State {
    s.(redis := c.redis,
       mems := if kept && c.mem.Some? then s.mems[proc := c.mem.value] else s.mems - {proc})
  }

  ghost function Changed(s: State, db: Db, owner: Option<nat>): State {
    s.(db := db, history := s.history + [Version(s.now, StoredView(db))], owner := owner)
  }

  ghost function Apply(s: State, a: Action, cfg: Config): State {
    match a
    case Tick(ms) => s.(now := s.now + ms)
    case Read(i, kept) => WithCaches(s, i, ReadCaches(CachesOf(s, i), s.db, s.now, cfg), kept)
    case Write(i, u, kept) =>
      var t := Applied(s.db, u, cfg);
      if t.None? then s
      else WithCaches(Changed(s, t.value, Some(i)), i, Warmed(View(Loaded(s.db) + u), s.now, cfg), kept)
    case Rollback(i, id) =>
      var t := RolledBack(s.db, id);
      if t.None? then s else WithCaches(Changed(s, t.value, Some(i)), i, Caches(None, None), false)
    case Repair(i, kept) =>
      if !NeedsRepair(s.db) then s
      else WithCaches(Changed(s, Repaired(s.db), Some(i)), i, Warmed(View(Rebuilt(s.db)), s.now, cfg), kept)
    case ManualSnapshot =>
      var t := WithSnapshot(s.db);
      if t.None? then s else s.(db := t.value)
    case SnapshotJob => Changed(s, Regenerated(s.db), None)
    case CompactJob => s.(db := Compacted(s.db, cfg.keep))
    case Evict(i) => s.(mems := s.mems - {i})
    case Damage(c) => Changed(s, s.db.(content := Some(c)), None)
  }

  ghost function Run(s: State, actions: seq<Action>, cfg: Config): State {
    if actions == [] then s
    else Apply(Run(s, actions[..|actions| - 1], cfg), actions[|actions| - 1], cfg)
  }

  /** Any database, with nothing cached yet. */
  ghost predicate Start(s: State) {
    s.redis == None && s.mems == map[] && s.history == [Version(s.now, StoredView(s.db))] && s.owner == None
  }

  /** What `getYState` answers on process `proc` now. */
  function Answer(s: State, proc: nat): Result<Served, Error> {
    ReadResult(CachesOf(s, proc), s.db, s.now)
  }

  /** The database served `view` at some time between `from` and `to`. */
  ghost predicate StoredDuring(h: seq<Version>, view: Result<Served, Error>, from: int, to: int) {
    exists k :: StoredAs(h, k, view, from, to)
  }

  ghost predicate StoredAs(h: seq<Version>, k: int, view: Result<Served, Error>, from: int, to: int) {
    0 <= k < |h| && h[k].view == view && h[k].since <= to && (k + 1 < |h| ==> from <= h[k + 1].since)
  }

  /** A cached entry was the stored view no longer ago than `ttl` before it expires. */
  ghost predicate Backed(h: seq<Version>, now: int, e: Redis.Entry<Served>, ttl: int) {
    e.expiresAt - ttl <= now && StoredDuring(h, Ok(e.value), e.expiresAt - ttl, now)
  }

  ghost predicate HistoryCurrent(s: State) {
    s.history != [] && s.history[|s.history| - 1].view == StoredView(s.db) && s.history[|s.history| - 1].since <= s.now
  }

  /** Cached entries are backed: the Redis copy by `redisMs`, memory copies by `memMs`. */
  ghost predicate CachesBacked(s: State, redisMs: int, memMs: int) {
    && (s.redis.Some? ==> Backed(s.history, s.now, s.redis.value, redisMs))
    && (forall i :: i in s.mems ==> Backed(s.history, s.now, s.mems[i], memMs))
  }

  ghost predicate IsCurrent(s: State, slot: CacheSlot) {
    slot.Some? ==> Ok(slot.value.value) == StoredView(s.db)
  }

  ghost predicate OwnerCurrent(s: State) {
    s.owner.Some? ==> IsCurrent(s, s.redis) && IsCurrent(s, CachesOf(s, s.owner.value).mem)
  }

  function RedisMs(cfg: Config): int { 1000 * cfg.redisTtl }
  function MemMs(cfg: Config): int { 1000 * cfg.memTtl }

  /** How far copies may lag behind: those in Redis by `redisMs`, those in memory by `memMs`. */
  ghost predicate Inv(s: State, redisMs: int, memMs: int) {
    HistoryCurrent(s) && CachesBacked(s, redisMs, memMs)
  }

  /** An entry stays backed as time passes and versions are added. */
  lemma BackedStays(h: seq<Version>, now: int, g: seq<Version>, later: int, e: Redis.Entry<Served>, ttl: int)
    requires Backed(h, now, e, ttl) && now <= later
    requires g == h || exists v: Version :: v.since == later && g == h + [v]
    ensures Backed(g, later, e, ttl)
  {
    var k :| StoredAs(h, k, Ok(e.value), e.expiresAt - ttl, now);
    assert StoredAs(g, k, Ok(e.value), e.expiresAt - ttl, later);
  }

  lemma CachesStayBacked(s: State, t: State, redisMs: int, memMs: int)
    requires CachesBacked(s, redisMs, memMs) && s.now <= t.now
    requires t.redis == None || t.redis == s.redis
    requires forall i :: i in t.mems ==> i in s.mems && t.mems[i] == s.mems[i]
    requires t.history == s.history || exists v: Version :: v.since == t.now && t.history == s.history + [v]
    ensures CachesBacked(t, redisMs, memMs)
  {
    if t.redis.Some? { BackedStays(s.history, s.now, t.history, t.now, s.redis.value, redisMs); }
    forall i | i in t.mems ensures Backed(t.history, t.now, t.mems[i], memMs) {
      BackedStays(s.history, s.now, t.history, t.now, s.mems[i], memMs);
    }
  }

  /** A copy of the current view is backed by any time to live it is given. */
  lemma CurrentIsBacked(s: State, view: Served, more: int, ttl: int)
    requires HistoryCurrent(s) && StoredView(s.db) == Ok(view) && more <= ttl
    ensures Backed(s.history, s.now, Redis.Entry(view, s.now + more), ttl)
  {
    assert StoredAs(s.history, |s.history| - 1, Ok(view), s.now + more - ttl, s.now);
  }

  lemma BackedLonger(h: seq<Version>, now: int, e: Redis.Entry<Served>, ttl: int, longer: int)
    requires Backed(h, now, e, ttl) && ttl <= longer
    ensures Backed(h, now, e, longer)
  {
    var k :| StoredAs(h, k, Ok(e.value), e.expiresAt - ttl, now);
    assert StoredAs(h, k, Ok(e.value), e.expiresAt - longer, now);
  }

  /** A live backed entry was stored recently, and a copy of it is backed by the times to live together. */
  lemma LiveIsRecent(h: seq<Version>, now: int, e: Redis.Entry<Served>, ttl: int, more: int)
    requires Backed(h, now, e, ttl) && now <= e.expiresAt && 0 <= more && 0 <= ttl
    ensures StoredDuring(h, Ok(e.value), now - ttl - more, now)
    ensures Backed(h, now, Redis.Entry(e.value, now + more), ttl + more)
  {
    var k :| StoredAs(h, k, Ok(e.value), e.expiresAt - ttl, now);
    assert StoredAs(h, k, Ok(e.value), now - ttl, now) && StoredAs(h, k, Ok(e.value), now - ttl - more, now);
  }

  /** Taking over backed cache entries keeps the invariant. */
  lemma AdoptKeepsInv(s: State, i: nat, c: Caches, kept: bool, redisMs: int, memMs: int)
    requires Inv(s, redisMs, memMs)
    requires c.redis.Some? ==> Backed(s.history, s.now, c.redis.value, redisMs)
    requires c.mem.Some? ==> Backed(s.history, s.now, c.mem.value, memMs)
    ensures Inv(WithCaches(s, i, c, kept), redisMs, memMs)
  {
  }

  lemma ReadKeepsInv(s: State, i: nat, kept: bool, cfg: Config, redisMs: int, memMs: int)
    requires Inv(s, redisMs, memMs) && RedisMs(cfg) <= redisMs && MemMs(cfg) <= memMs
    requires redisMs + MemMs(cfg) <= memMs || IsCurrent(s, s.redis)
    ensures Inv(Apply(s, Read(i, kept), cfg), redisMs, memMs)
  {
    var c := CachesOf(s, i);
    if Lookup(c.mem, s.now).None? {
      if Lookup(s.redis, s.now).Some? {
        if IsCurrent(s, s.redis) {
          CurrentIsBacked(s, s.redis.value.value, MemMs(cfg), memMs);
        } else {
          LiveIsRecent(s.history, s.now, s.redis.value, redisMs, MemMs(cfg));
          var copied := Redis.Entry(s.redis.value.value, s.now + MemMs(cfg));
          BackedLonger(s.history, s.now, copied, redisMs + MemMs(cfg), memMs);
        }
      } else if StoredView(s.db).Ok? {
        CurrentIsBacked(s, StoredView(s.db).value, RedisMs(cfg), redisMs);
        CurrentIsBacked(s, StoredView(s.db).value, MemMs(cfg), memMs);
      }
    }
    AdoptKeepsInv(s, i, ReadCaches(c, s.db, s.now, cfg), kept, redisMs, memMs);
  }

  /** Adopting `db` as the content and its view as the fresh cache entries. */
  lemma ReplaceKeepsInv(s: State, db: Db, i: nat, kept: bool, view: Served, cfg: Config, redisMs: int, memMs: int)
    requires Inv(s, redisMs, memMs) && RedisMs(cfg) <= redisMs && MemMs(cfg) <= memMs
    requires StoredView(db) == Ok(view)
    ensures Inv(WithCaches(Changed(s, db, Some(i)), i, Warmed(view, s.now, cfg), kept), redisMs, memMs)
  {
    var mid := Changed(s, db, None);
    CachesStayBacked(s, mid, redisMs, memMs);
    CurrentIsBacked(mid, view, RedisMs(cfg), redisMs);
    CurrentIsBacked(mid, view, MemMs(cfg), memMs);
    AdoptKeepsInv(mid, i, Warmed(view, s.now, cfg), kept, redisMs, memMs);
  }

  lemma StepKeepsInv(s: State, a: Action, cfg: Config, redisMs: int, memMs: int)
    requires Inv(s, redisMs, memMs) && RedisMs(cfg) <= redisMs && MemMs(cfg) <= memMs
    requires redisMs + MemMs(cfg) <= memMs || IsCurrent(s, s.redis)
    ensures Inv(Apply(s, a, cfg), redisMs, memMs)
  {
    match a
    case Read(i, kept) => ReadKeepsInv(s, i, kept, cfg, redisMs, memMs);
    case Write(i, u, kept) =>
      if Applied(s.db, u, cfg).Some? {
        ReplaceKeepsInv(s, Applied(s.db, u, cfg).value, i, kept, View(Loaded(s.db) + u), cfg, redisMs, memMs);
      }
    case Repair(i, kept) =>
      if NeedsRepair(s.db) {
        ReplaceKeepsInv(s, Repaired(s.db), i, kept, View(Rebuilt(s.db)), cfg, redisMs, memMs);
      }
    case _ => CachesStayBacked(s, Apply(s, a, cfg), redisMs, memMs);
  }

  lemma StepKeepsOwner(s: State, a: Action, cfg: Config)
    requires OwnerCurrent(s)
    ensures OwnerCurrent(Apply(s, a, cfg))
  {
  }

  lemma {:induction false} RunKeepsInv(s: State, actions: seq<Action>, cfg: Config)
    requires Start(s)
    ensures Inv(Run(s, actions, cfg), RedisMs(cfg), RedisMs(cfg) + MemMs(cfg)) && OwnerCurrent(Run(s, actions, cfg))
  {
    if actions != [] {
      RunKeepsInv(s, actions[..|actions| - 1], cfg);
      StepKeepsInv(Run(s, actions[..|actions| - 1], cfg), actions[|actions| - 1], cfg,
                   RedisMs(cfg), RedisMs(cfg) + MemMs(cfg));
      StepKeepsOwner(Run(s, actions[..|actions| - 1], cfg), actions[|actions| - 1], cfg);
    }
  }

  /** The answer of a process, given how far its copies may lag. */
  lemma AnswerIsRecent(s: State, proc: nat, redisMs: int, memMs: int)
    requires Inv(s, redisMs, memMs) && 0 <= redisMs && 0 <= memMs
    requires redisMs <= memMs || IsCurrent(s, s.redis)
    ensures StoredDuring(s.history, Answer(s, proc), s.now - memMs, s.now)
  {
    var c := CachesOf(s, proc);
    if Lookup(c.mem, s.now).Some? {
      LiveIsRecent(s.history, s.now, c.mem.value, memMs, 0);
    } else if Lookup(c.redis, s.now).Some? && redisMs <= memMs {
      LiveIsRecent(s.history, s.now, c.redis.value, redisMs, memMs - redisMs);
    } else {
      assert StoredAs(s.history, |s.history| - 1, StoredView(s.db), s.now - memMs, s.now);
    }
  }

  /**
   In every run, over any number of processes, what `getYState` answers was served by the
   database no longer ago than the two times to live together.
  */
  lemma BoundedStaleness(s: State, actions: seq<Action>, proc: nat, cfg: Config)
    requires Start(s)
    ensures var t := Run(s, actions, cfg);
            StoredDuring(t.history, Answer(t, proc), t.now - RedisMs(cfg) - MemMs(cfg), t.now)
  {
    RunKeepsInv(s, actions, cfg);
    AnswerIsRecent(Run(s, actions, cfg), proc, RedisMs(cfg), RedisMs(cfg) + MemMs(cfg));
  }

  /** On the process that last changed the content, `getYState` is exactly current. */
  lemma WriterReadsItsWrite(s: State, actions: seq<Action>, cfg: Config)
    requires Start(s)
    ensures var t := Run(s, actions, cfg);
            t.owner.Some? ==> Answer(t, t.owner.value) == StoredView(t.db)
  {
    RunKeepsInv(s, actions, cfg);
  }

  /** Only jobs and damage change the content without touching the shared copy. */
  ghost predicate ThroughService(a: Action) {
    !a.SnapshotJob? && !a.Damage?
  }

  lemma StepKeepsSharedCurrent(s: State, a: Action, cfg: Config)
    requires IsCurrent(s, s.redis) && ThroughService(a)
    ensures var t := Apply(s, a, cfg); IsCurrent(t, t.redis)
  {
  }

  lemma {:induction false} SharedCopyStaysCurrent(s: State, actions: seq<Action>, cfg: Config)
    requires Start(s) && forall i :: 0 <= i < |actions| ==> ThroughService(actions[i])
    ensures var t := Run(s, actions, cfg);
            IsCurrent(t, t.redis) && Inv(t, RedisMs(cfg), MemMs(cfg))
  {
    if actions != [] {
      var init, a := actions[..|actions| - 1], actions[|actions| - 1];
      SharedCopyStaysCurrent(s, init, cfg);
      StepKeepsInv(Run(s, init, cfg), a, cfg, RedisMs(cfg), MemMs(cfg));
      StepKeepsSharedCurrent(Run(s, init, cfg), a, cfg);
    }
  }

  /** Without jobs, answers lag by the memory time to live alone. */
  lemma StalenessWithoutJobs(s: State, actions: seq<Action>, proc: nat, cfg: Config)
    requires Start(s) && forall i :: 0 <= i < |actions| ==> ThroughService(actions[i])
    ensures var t := Run(s, actions, cfg);
            StoredDuring(t.history, Answer(t, proc), t.now - MemMs(cfg), t.now)
  {
    SharedCopyStaysCurrent(s, actions, cfg);
    AnswerIsRecent(Run(s, actions, cfg), proc, RedisMs(cfg), MemMs(cfg));
  }

  lemma RunSnoc(s: State, actions: seq<Action>, a: Action, cfg: Config)
    ensures Run(s, actions + [a], cfg) == Apply(Run(s, actions, cfg), a, cfg)
  {
    assert (actions + [a])[..|actions|] == actions;
  }

  /** A read fills Redis, a job replaces the content, and the copy of it in Redis lives on. */
  ghost function StaleShared(s: State, cfg: Config): State {
    Apply(Apply(Apply(s, Read(0, true), cfg), SnapshotJob, cfg), Tick(RedisMs(cfg)), cfg)
  }

  lemma StaleSharedState(s: State, cfg: Config)
    requires Start(s) && StoredView(s.db).Ok?
    ensures var t := StaleShared(s, cfg);
            && t.now == s.now + RedisMs(cfg) && 1 !in t.mems && t.db == Regenerated(s.db)
            && t.redis == Some(Redis.Entry(StoredView(s.db).value, t.now))
            && t.history == s.history + [Version(s.now, StoredView(t.db))]
  {
  }

  /**
   With jobs the longer bound is reached: another process copies from Redis at its last instant
   and answers from that copy for as long as it lives.
  */
  lemma BoundIsReached(s: State, cfg: Config) returns (actions: seq<Action>)
    requires Start(s) && StoredView(s.db).Ok? && StoredView(s.db).value != View(Rebuilt(s.db))
    ensures var t := Run(s, actions, cfg);
            && actions == [Read(0, true), SnapshotJob, Tick(RedisMs(cfg)), Read(1, true), Tick(MemMs(cfg))]
            && t.now == s.now + RedisMs(cfg) + MemMs(cfg)
            && Answer(t, 1) == StoredView(s.db) && StoredView(t.db) != StoredView(s.db)
            && forall from :: s.now < from ==> !StoredDuring(t.history, Answer(t, 1), from, t.now)
  {
    var fill := [Read(0, true)];
    RunSnoc(s, [], Read(0, true), cfg);
    assert [] + fill == fill;
    RunSnoc(s, fill, SnapshotJob, cfg);
    RunSnoc(s, fill + [SnapshotJob], Tick(RedisMs(cfg)), cfg);
    var stale := fill + [SnapshotJob] + [Tick(RedisMs(cfg))];
    assert Run(s, stale, cfg) == StaleShared(s, cfg);
    StaleSharedState(s, cfg);
    RunSnoc(s, stale, Read(1, true), cfg);
    RunSnoc(s, stale + [Read(1, true)], Tick(MemMs(cfg)), cfg);
    actions := stale + [Read(1, true)] + [Tick(MemMs(cfg))];
  }

  // ---------- Snapshots ----------

  /** The content is one that the service wrote: its checksum and its vector agree with its state. */
  ghost predicate Intact(c: Content) {
    c.state.Gzip? && ChecksumMatches(c) && c.vector == StateVector(c.state.doc)
  }

  ghost predicate AllIntact(db: Db) {
    (db.content.Some? ==> Intact(db.content.value)) && forall i :: 0 <= i < |db.snaps| ==> Intact(db.snaps[i].content)
  }

  lemma StepKeepsIntact(s: State, a: Action, cfg: Config)
    requires AllIntact(s.db) && !a.Damage?
    ensures AllIntact(Apply(s, a, cfg).db)
  {
    var db, e := Apply(s, a, cfg).db, s.db;
    if db.content != e.content && a.Rollback? {
      assert db.content == Some(e.snaps[a.id].content);
    }
    assert forall i :: 0 <= i < |e.snaps| ==> db.snaps[i] == e.snaps[i];
  }

  /** Without damage every stored record stays intact, so `validateAndRepair` never rebuilds. */
  lemma {:induction false} NoRepairWithoutDamage(s: State, actions: seq<Action>, cfg: Config)
    requires AllIntact(s.db) && forall i :: 0 <= i < |actions| ==> !actions[i].Damage?
    ensures var db := Run(s, actions, cfg).db;
            AllIntact(db) && !NeedsRepair(db) && StoredView(db) == Ok(View(Loaded(db)))
  {
    if actions != [] {
      NoRepairWithoutDamage(s, actions[..|actions| - 1], cfg);
      StepKeepsIntact(Run(s, actions[..|actions| - 1], cfg), actions[|actions| - 1], cfg);
    }
  }

  lemma {:induction false} SnapshotsAreKept(s: State, actions: seq<Action>, cfg: Config)
    ensures s.db.snaps <= Run(s, actions, cfg).db.snaps
  {
    if actions != [] {
      SnapshotsAreKept(s, actions[..|actions| - 1], cfg);
    }
  }

  /**
   Take a manual snapshot, let anything happen, damage included, then roll back to it: the process
   that rolled back serves exactly the snapshotted view, and `validateAndRepair` leaves it alone
   exactly when the snapshotted record had a matching checksum.
  */
  lemma SnapshotRoundTrip(s: State, actions: seq<Action>, proc: nat, cfg: Config)
    requires s.db.content.Some?
    ensures var id := |s.db.snaps|;
            var later := Run(Apply(s, ManualSnapshot, cfg), actions, cfg);
            var t := Apply(later, Rollback(proc, id), cfg);
            && t.db.content == s.db.content
            && Answer(t, proc) == StoredView(s.db)
            && (NeedsRepair(t.db) <==> !ChecksumMatches(s.db.content.value))
            && t.db.row == later.db.row && t.db.log == later.db.log
  {
    SnapshotsAreKept(Apply(s, ManualSnapshot, cfg), actions, cfg);
  }

  /** A repair on process `i` rebuilds the content from the log, and the process then serves that. */
  lemma RepairRebuilds(s: State, i: nat, kept: bool, cfg: Config)
    requires NeedsRepair(s.db)
    ensures var t := Apply(s, Repair(i, kept), cfg);
            && t.db == s.db.(content := Some(Sealed(Rebuilt(s.db))))
            && Answer(t, i) == Ok(View(Rebuilt(s.db))) && !NeedsRepair(t.db)
  {
  }

  /**
   In every run without damage so far, let the stored bytes be replaced under their checksum: any read may serve
   them, but the next repair detects it, stores the join of the decodable log, and serves that; unless the bytes are
   what they were, when it changes nothing.
  */
  lemma DamageIsRepaired(s: State, actions: seq<Action>, bytes: UpdateLog.Blob, i: nat, kept: bool, cfg: Config)
    requires AllIntact(s.db) && forall k :: 0 <= k < |actions| ==> !actions[k].Damage?
    requires Run(s, actions, cfg).db.content.Some?
    ensures var t := Run(s, actions, cfg);
            var damaged := Apply(t, Damage(t.db.content.value.(state := bytes)), cfg);
            var r := Apply(damaged, Repair(i, kept), cfg);
            if bytes == t.db.content.value.state then r == damaged
            else r.db == t.db.(content := Some(Sealed(Rebuilt(t.db)))) && Answer(r, i) == Ok(View(Rebuilt(t.db)))
  {
    NoRepairWithoutDamage(s, actions, cfg);
    var t := Run(s, actions, cfg);
    var d := t.db.content.value.state.doc;
    assert t.db.content.value == Sealed(d);
    DamageIsDetected(t.db, d, bytes);
    var damaged := Apply(t, Damage(t.db.content.value.(state := bytes)), cfg);
    assert damaged.db == t.db.(content := Some(Sealed(d).(state := bytes)));
    if bytes != UpdateLog.Gzip(d) {
      RepairRebuilds(damaged, i, kept, cfg);
    }
  }
}
