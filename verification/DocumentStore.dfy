/**
 The persistent views of one document and the operations of `documents.service.ts` on them: the
 merged content, the version counter, the update log and the snapshots, behind two caches.
*/
module DocumentStore {
  import opened Common
  import opened Yjs
  import opened UpdateLog
  import opened Redis
  import Lock
  import MemoryCache
  import Replay

  /** sha256, as an injective function of the bytes; undecodable content hashes as no bytes. */
  datatype Digest = Digest(bytes: Option<Doc>)

  datatype Content = Content(state: Blob, vector: Vector, checksum: Option<Digest>)

  datatype Snapshot = Snapshot(seqNo: int, content: Content)

  /** `row` is the version in the documents collection; it is missing once that record is gone. */
  datatype Db = Db(row: Option<nat>, content: Option<Content>, log: seq<LogEntry>, snaps: seq<Snapshot>)

  datatype Config = Config(keep: nat, snapshotEvery: nat, memTtl: nat, redisTtl: nat)

  datatype Error = Corrupt | InvalidUpdate | Conflict | Aborted | NotFound

  const LOCK_TTL_MS := 5000
  const PAGE := 1000

  function Raw(b: Blob): Doc {
    if b.Gzip? then b.doc else {}
  }

  function Hash(b: Blob): Digest {
    Digest(if b.Gzip? then Some(b.doc) else None)
  }

  /** The record written for a merged document. */
  function Sealed(d: Doc): Content {
    Content(Gzip(d), StateVector(d), Some(Digest(Some(d))))
  }

  /** The merged document an update is applied to. */
  function Loaded(db: Db): Doc {
    if db.content.Some? then Raw(db.content.value.state) else {}
  }

  function NextSeq(db: Db): nat {
    if db.row.Some? then db.row.value + 1 else 0
  }

  function Bumped(db: Db): Option<nat> {
    if db.row.Some? then Some(db.row.value + 1) else None
  }

  predicate SnapshotDue(seqNo: nat, cfg: Config) {
    cfg.snapshotEvery != 0 && seqNo % cfg.snapshotEvery == 0
  }

  /** The transaction of `applyYUpdate`; it aborts when the sequence number is already logged. */
  function Commit(db: Db, merged: Doc, update: Doc, cfg: Config): Option<Db> {
    var s := NextSeq(db);
    if HasSeq(db.log, s) then None
    else Some(Db(Bumped(db), Some(Sealed(merged)), Inserted(db.log, LogEntry(s, Gzip(update))),
                 db.snaps + if SnapshotDue(s, cfg) then [Snapshot(s, Sealed(merged))] else []))
  }

  /** The opportunistic compaction that follows a commit numbered `s`. */
  function Trimmed(db: Db, s: int, keep: nat): Db {
    if s > keep then db.(log := After(db.log, s - keep)) else db
  }

  function Applied(db: Db, update: Doc, cfg: Config): Option<Db> {
    var c := Commit(db, Loaded(db) + update, update, cfg);
    if c.None? then None else Some(Trimmed(c.value, NextSeq(db), cfg.keep))
  }

  function WithSnapshot(db: Db): Option<Db> {
    if db.content.None? then None
    else Some(db.(row := Bumped(db), snaps := db.snaps + [Snapshot(NextSeq(db), db.content.value)]))
  }

  function RolledBack(db: Db, id: nat): Option<Db> {
    if id < |db.snaps| then Some(db.(content := Some(db.snaps[id].content))) else None
  }

  /** The stored state is the one the checksum was taken of. */
  predicate ChecksumMatches(c: Content) {
    c.checksum == Some(Hash(c.state))
  }

  /** What replaying the retained log yields. */
  ghost function Rebuilt(db: Db): Doc {
    Decoded(After(db.log, 0))
  }

  ghost function Regenerated(db: Db): Db {
    db.(content := Some(Sealed(Rebuilt(db))))
  }

  predicate NeedsRepair(db: Db) {
    db.content.Some? && !ChecksumMatches(db.content.value)
  }

  /** Any other bytes under a checksum are detected, undecodable ones included; the right ones never are. */
  lemma DamageIsDetected(db: Db, d: Doc, b: Blob)
    ensures NeedsRepair(db.(content := Some(Sealed(d).(state := b)))) <==> b != Gzip(d)
  {
  }

  /** A record needs repair exactly when it has no checksum, or one of other bytes than it stores. */
  lemma NeedsRepairIff(db: Db, c: Content)
    requires db.content == Some(c)
    ensures NeedsRepair(db) <==>
            c.checksum.None? || c.checksum.value.bytes != (if c.state.Gzip? then Some(c.state.doc) else None)
  {
  }

  ghost function Repaired(db: Db): Db {
    if NeedsRepair(db) then Regenerated(db) else db
  }

  function Compacted(db: Db, keep: nat): Db {
    var cutoff := Latest(db.log) - keep;
    if cutoff > 0 then db.(log := After(db.log, cutoff)) else db
  }

  lemma {:induction false} FewNumbers(es: seq<LogEntry>, lo: int, hi: int)
    requires Ascending(es) && lo <= hi && forall i :: 0 <= i < |es| ==> lo < es[i].seqNo <= hi
    ensures |es| <= hi - lo
  {
    if es != [] {
      FewNumbers(es[..|es| - 1], lo, es[|es| - 1].seqNo - 1);
    }
  }

  /** Exactly the entries numbered above the cutoff stay. */
  lemma AfterStays(es: seq<LogEntry>, cutoff: int, last: int)
    requires Ascending(es) && cutoff <= last && forall i :: 0 <= i < |es| ==> es[i].seqNo <= last
    ensures forall i :: 0 <= i < |es| ==> (es[i] in After(es, cutoff) <==> cutoff < es[i].seqNo)
    ensures |After(es, cutoff)| <= last - cutoff
  {
    var n := Rank(es, cutoff);
    AfterSelects(es, cutoff);
    forall i | n <= i < |es| ensures es[i] in After(es, cutoff) {
      assert After(es, cutoff)[i - n] == es[i];
    }
    FewNumbers(After(es, cutoff), cutoff, last);
  }

  /** Compaction after commit `n` keeps exactly the entries above `n - keep`, and so a bounded log. */
  lemma TrimmedIs(db: Db, n: int, keep: nat, last: int)
    requires Ascending(db.log) && n <= last && forall i :: 0 <= i < |db.log| ==> 1 <= db.log[i].seqNo <= last
    requires 0 <= last
    ensures forall i :: 0 <= i < |db.log| ==> (db.log[i] in Trimmed(db, n, keep).log <==> n - keep < db.log[i].seqNo)
    ensures |Trimmed(db, n, keep).log| <= last - n + keep
  {
    if n > keep {
      AfterStays(db.log, n - keep, last);
    } else {
      FewNumbers(db.log, 0, last);
    }
  }

  lemma FirstAndLast(es: seq<LogEntry>)
    requires Ascending(es) && es != []
    ensures forall i :: 0 <= i < |es| ==> es[0].seqNo <= es[i].seqNo <= es[|es| - 1].seqNo
  {
  }

  /** The compaction job keeps exactly the entries among the last `keep` numbers, and so at most `keep`. */
  lemma CompactedIs(db: Db, keep: nat)
    requires Ascending(db.log) && db.log != [] && 1 <= db.log[0].seqNo
    ensures var t, last := Compacted(db, keep).log, db.log[|db.log| - 1].seqNo;
            && (forall i :: 0 <= i < |db.log| ==> (db.log[i] in t <==> last - keep < db.log[i].seqNo))
            && |t| <= keep
  {
    var last := db.log[|db.log| - 1].seqNo;
    FirstAndLast(db.log);
    if last > keep {
      AfterStays(db.log, last - keep, last);
    } else {
      FewNumbers(db.log, 0, last);
    }
  }

  /** What `getYState` hands out: the update and its vector. */
  datatype Served = Served(update: Doc, vector: Vector)

  function StoredView(db: Db): Result<Served, Error> {
    match db.content
    case None => Ok(Served({}, StateVector({})))
    case Some(c) => if c.state.Gzip? then Ok(Served(c.state.doc, c.vector)) else Err(Corrupt)
  }

  type CacheSlot = Option<Redis.Entry<Served>>

  /** The two cached copies of one document: one process's memory, and the shared Redis key. */
  datatype Caches = Caches(mem: CacheSlot, redis: CacheSlot)

  function ReadResult(c: Caches, db: Db, now: int): Result<Served, Error> {
    if Lookup(c.mem, now).Some? then Ok(Lookup(c.mem, now).value)
    else if Lookup(c.redis, now).Some? then Ok(Lookup(c.redis, now).value)
    else StoredView(db)
  }

  function Fresh(s: Served, now: int, ttlSeconds: nat): CacheSlot {
    Some(Redis.Entry(s, now + 1000 * ttlSeconds))
  }

  /** The caches after a read, if memory eviction spares the new entry. */
  function ReadCaches(c: Caches, db: Db, now: int, cfg: Config): Caches {
    if Lookup(c.mem, now).Some? then c
    else if Lookup(c.redis, now).Some? then c.(mem := Fresh(Lookup(c.redis, now).value, now, cfg.memTtl))
    else match StoredView(db)
      case Ok(s) => Warmed(s, now, cfg)
      case Err(_) => c.(mem := None)
  }

  function Warmed(s: Served, now: int, cfg: Config): Caches {
    Caches(Fresh(s, now, cfg.memTtl), Fresh(s, now, cfg.redisTtl))
  }

  function View(d: Doc): Served {
    Served(d, StateVector(d))
  }

  /** Eviction may remove the in-process copy at any time, and nothing else. */
  predicate SameButEvicted(c: Caches, expected: Caches) {
    c.redis == expected.redis && (c.mem == expected.mem || c.mem == None)
  }

  /** The collections that hold one document. */
  class DocumentDatabase {
    var row: Option<nat>
    var content: Option<Content>
    var snaps: seq<Snapshot>
    const updates: DocumentUpdateRepository

    constructor (row: Option<nat>)
      ensures Valid() && fresh(updates) && Value() == Db(row, None, [], [])
    {
      this.row, content, snaps := row, None, [];
      updates := new DocumentUpdateRepository();
    }

    ghost predicate Valid()
      reads this, updates
    {
      updates.Valid()
    }

    function Value(): Db
      reads this, updates
    {
      Db(row, content, updates.entries, snaps)
    }

    /** `incVersion` on a missing record changes nothing, and the caller uses 0. */
    method IncVersion() returns (version: nat)
      modifies this`row
      ensures version == old(NextSeq(Value())) && row == old(Bumped(Value()))
    {
      version := 0;
      if row.Some? {
        row := Some(row.value + 1);
        version := row.value;
      }
    }

    method UpsertState(c: Content)
      modifies this`content
      ensures content == Some(c)
    {
      content := Some(c);
    }

    method CreateSnapshot(seqNo: nat, c: Content)
      modifies this`snaps
      ensures snaps == old(snaps) + [Snapshot(seqNo, c)]
    {
      snaps := snaps + [Snapshot(seqNo, c)];
    }

    /** `runWithTransaction`: all of it, or nothing. */
    method Transact(merged: Doc, update: Doc, cfg: Config) returns (committed: Option<nat>)
      requires Valid()
      modifies this, updates
      ensures Valid()
      ensures committed == if Commit(old(Value()), merged, update, cfg).Some? then Some(old(NextSeq(Value()))) else None
      ensures Value() == if committed.Some? then Commit(old(Value()), merged, update, cfg).value else old(Value())
    {
      var before := row;
      var version := IncVersion();
      var ok := updates.Append(version, Gzip(update));
      if !ok {
        row := before;
        return None;
      }
      UpsertState(Sealed(merged));
      if SnapshotDue(version, cfg) {
        CreateSnapshot(version, Sealed(merged));
      }
      committed := Some(version);
    }

    /** The locked section of `applyYUpdate`: the transaction, then the opportunistic compaction. */
    method CommitAndTrim(merged: Doc, update: Doc, cfg: Config) returns (ok: bool)
      requires Valid()
      modifies this, updates
      ensures Valid()
      ensures ok == Commit(old(Value()), merged, update, cfg).Some?
      ensures Value() ==
              if ok then Trimmed(Commit(old(Value()), merged, update, cfg).value, old(NextSeq(Value())), cfg.keep)
              else old(Value())
    {
      var version := Transact(merged, update, cfg);
      if version.Some? && version.value > cfg.keep {
        updates.CompactUpTo(version.value - cfg.keep);
      }
      ok := version.Some?;
    }
  }

  class DocumentsService {
    const docKey: string
    const cfg: Config
    const db: DocumentDatabase
    const lock: Lock.LockService
    const mem: MemoryCache.MemoryCacheService<Served>
    const cache: CacheService<Served>

    constructor (docKey: string, cfg: Config, db: DocumentDatabase, lock: Lock.LockService,
                 mem: MemoryCache.MemoryCacheService<Served>, cache: CacheService<Served>)
      ensures this.docKey == docKey && this.cfg == cfg && this.db == db && this.lock == lock
      ensures this.mem == mem && this.cache == cache
    {
      this.docKey, this.cfg, this.db, this.lock, this.mem, this.cache := docKey, cfg, db, lock, mem, cache;
    }

    function CacheState(): Caches
      reads mem, cache
    {
      Caches(MemoryCache.Slot(mem.Value(), docKey), cache.Slot(docKey))
    }

    method Remember(now: int, s: Served)
      modifies mem
      ensures SameButEvicted(CacheState(), old(CacheState()).(mem := Fresh(s, now, cfg.memTtl)))
    {
      ghost var before := mem.Value();
      mem.Set(now, docKey, s, cfg.memTtl);
      var e := Redis.Entry(s, now + 1000 * cfg.memTtl);
      MemoryCache.EvictedKeepsOrDrops(
        MemoryCache.State(before.store[docKey := e], before.order + [docKey]), mem.max, docKey);
    }

    /** Invalidate both caches and warm them with the fresh state. */
    method Replace(now: int, s: Served)
      modifies mem, cache
      ensures SameButEvicted(CacheState(), Warmed(s, now, cfg))
    {
      mem.Del(docKey);
      cache.Del(docKey);
      Remember(now, s);
      cache.SetJson(now, docKey, s, cfg.redisTtl);
    }

    method GetYState(now: int) returns (out: Result<Served, Error>)
      modifies mem, cache
      ensures out == ReadResult(old(CacheState()), db.Value(), now)
      ensures SameButEvicted(CacheState(), ReadCaches(old(CacheState()), db.Value(), now, cfg))
    {
      var cached := mem.Get(now, docKey);
      if cached.Some? {
        return Ok(cached.value);
      }
      var shared := cache.GetJson(now, docKey);
      if shared.Some? {
        Remember(now, shared.value);
        return Ok(shared.value);
      }
      if db.content.None? {
        out := Ok(Served({}, StateVector({})));
      } else if db.content.value.state.Garbled? {
        return Err(Corrupt);
      } else {
        out := Ok(Served(db.content.value.state.doc, db.content.value.vector));
      }
      Remember(now, out.value);
      cache.SetJson(now, docKey, out.value, cfg.redisTtl);
    }

    /** `payload` is the decoded update, or nothing when `Y.applyUpdate` would reject it. */
    method ApplyYUpdate(now: int, payload: Option<Doc>, token: nat) returns (r: Result<(), Error>)
      requires db.Valid()
      modifies db, db.updates, lock, mem, cache
      ensures db.Valid()
      ensures r == ApplyOutcome(old(db.Value()), old(lock.At(docKey)), payload, now, cfg)
      ensures db.Value() == if r.Ok? then Applied(old(db.Value()), payload.value, cfg).value else old(db.Value())
      ensures r.Ok? ==> SameButEvicted(CacheState(), Warmed(View(old(Loaded(db.Value())) + payload.value), now, cfg))
      ensures r.Err? ==> CacheState() == old(CacheState())
      ensures lock.At(docKey) == if r.Ok? || r.error.Aborted? then None else old(lock.At(docKey))
    {
      var base := if db.content.Some? && db.content.value.state.Gzip? then db.content.value.state.doc else {};
      if payload.None? {
        return Err(InvalidUpdate);
      }
      var update := payload.value;
      var merged := base + update;
      var held := lock.TryAcquire(now, docKey, token, LOCK_TTL_MS);
      if held.None? {
        return Err(Conflict);
      }
      var ok := db.CommitAndTrim(merged, update, cfg);
      lock.Free(now, docKey, held.value);
      if !ok {
        return Err(Aborted);
      }
      Replace(now, View(merged));
      r := Ok(());
    }

    method RollbackToSnapshot(id: nat) returns (r: Result<(), Error>)
      modifies db, mem, cache
      ensures r.Ok? <==> RolledBack(old(db.Value()), id).Some?
      ensures r.Ok? ==> db.Value() == RolledBack(old(db.Value()), id).value && CacheState() == Caches(None, None)
      ensures r.Err? ==> r.error == NotFound && db.Value() == old(db.Value()) && CacheState() == old(CacheState())
    {
      if id >= |db.snaps| {
        return Err(NotFound);
      }
      db.UpsertState(db.snaps[id].content);
      mem.Del(docKey);
      cache.Del(docKey);
      r := Ok(());
    }

    method CreateManualSnapshot() returns (r: Result<nat, Error>)
      modifies db
      ensures r.Ok? <==> WithSnapshot(old(db.Value())).Some?
      ensures r.Ok? ==> db.Value() == WithSnapshot(old(db.Value())).value && r.value == |old(db.snaps)|
      ensures r.Err? ==> r.error == NotFound && db.Value() == old(db.Value())
    {
      if db.content.None? {
        return Err(NotFound);
      }
      var version := db.IncVersion();
      r := Ok(|db.snaps|);
      db.CreateSnapshot(version, db.content.value);
    }

    /**
     Applied to snapshot `fromId`, the patch gives the join of both, so `toId` itself when it is the later one; it
     repeats no operation of a gap-free `fromId`.
    */
    method DiffSnapshots(fromId: nat, toId: nat) returns (patch: Result<Doc, Error>)
      ensures patch.Ok? <==> fromId < |db.snaps| && toId < |db.snaps|
      ensures patch.Ok? ==>
                var a, b := Raw(db.snaps[fromId].content.state), Raw(db.snaps[toId].content.state);
                && a + patch.value == a + b && (a + patch.value == b <==> a <= b)
                && patch.value <= b && (GapFree(a) ==> Inserts(patch.value) !! a)
    {
      if fromId >= |db.snaps| || toId >= |db.snaps| {
        return Err(NotFound);
      }
      var a, b := Raw(db.snaps[fromId].content.state), Raw(db.snaps[toId].content.state);
      DiffCompletes(a, b);
      PatchReachesTarget(a, b);
      DiffIsMinimalIffGapFree(a);
      patch := Ok(EncodeSince(b, StateVector(a)));
    }

    method ValidateAndRepair(now: int) returns (repaired: bool)
      requires db.Valid()
      requires Replay.NoDeadPage(After(db.updates.entries, 0), PAGE)
      modifies db, mem, cache
      ensures repaired == NeedsRepair(old(db.Value()))
      ensures db.Value() == Repaired(old(db.Value()))
      ensures if repaired
              then SameButEvicted(CacheState(), Warmed(View(Rebuilt(db.Value())), now, cfg))
              else CacheState() == old(CacheState())
    {
      if db.content.None? || db.content.value.checksum == Some(Hash(db.content.value.state)) {
        return false;
      }
      var doc, cursor := Replay.ReplayLog(db.updates, PAGE);
      db.UpsertState(Sealed(doc));
      Remember(now, View(doc));
      cache.SetJson(now, docKey, View(doc), cfg.redisTtl);
      repaired := true;
    }
  }

  function ApplyOutcome(db: Db, lockSlot: Lock.Slot, payload: Option<Doc>, now: int, cfg: Config): Result<(), Error> {
    if payload.None? then Err(InvalidUpdate)
    else if Lookup(lockSlot, now).Some? then Err(Conflict)
    else if Applied(db, payload.value, cfg).None? then Err(Aborted)
    else Ok(())
  }

  /** The background jobs of `document-jobs.service.ts`. They leave both caches alone. */
  class DocumentJobsService {
    const db: DocumentDatabase
    const cfg: Config

    constructor (db: DocumentDatabase, cfg: Config)
      ensures this.db == db && this.cfg == cfg
    {
      this.db, this.cfg := db, cfg;
    }

    method ProcessCompact()
      requires db.Valid()
      modifies db.updates
      ensures db.Valid() && db.Value() == Compacted(old(db.Value()), cfg.keep)
    {
      var latest := db.updates.LatestSeq();
      var cutoff := latest - cfg.keep;
      if cutoff > 0 {
        db.updates.CompactUpTo(cutoff);
      }
    }

    method ProcessSnapshot()
      requires db.Valid()
      requires Replay.NoDeadPage(After(db.updates.entries, 0), PAGE)
      modifies db
      ensures db.Value() == Regenerated(old(db.Value()))
    {
      var doc, cursor := Replay.ReplayLog(db.updates, PAGE);
      db.UpsertState(Sealed(doc));
    }
  }
}
