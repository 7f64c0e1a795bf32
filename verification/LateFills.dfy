/**
 A `getYState` that misses the caches reads the database first and fills the caches in later calls; meanwhile
 anything may happen. Everything else is one step, as in `Cluster`.
*/
module LateFills {
  import opened Common
  import opened Yjs
  import opened DocumentStore
  import opened Cluster
  import Redis

  /**
   What a read still has to do with the view it got at time `at`: keep it in memory and share it, or one of
   the two.
  */
  datatype Fill =
    | Both(proc: nat, view: Served, at: int)
    | KeepOnly(proc: nat, view: Served, at: int)
    | ShareOnly(view: Served, at: int)

  datatype Late = Late(cluster: State, fills: map<nat, Fill>)

  datatype Move =
    | Whole(a: Action)
    | FindInDatabase(r: nat, proc: nat)
    | FindInRedis(r: nat, proc: nat)
    | Keep(r: nat, kept: bool)
    | Share(r: nat)

  ghost function After(s: Late, m: Move, cfg: Config): Late {
    match m
    case Whole(a) => s.(cluster := Apply(s.cluster, a, cfg))
    case FindInDatabase(r, i) =>
      if StoredView(s.cluster.db).Ok?
      then s.(fills := s.fills[r := Both(i, StoredView(s.cluster.db).value, s.cluster.now)]) else s
    case FindInRedis(r, i) =>
      var shared := Redis.Lookup(s.cluster.redis, s.cluster.now);
      if shared.Some? then s.(fills := s.fills[r := KeepOnly(i, shared.value, s.cluster.now)]) else s
    case Keep(r, kept) =>
      if r in s.fills && !s.fills[r].ShareOnly? then
        var f, c := s.fills[r], s.cluster;
        Late(WithCaches(c, f.proc, Caches(Fresh(f.view, c.now, cfg.memTtl), c.redis), kept),
             if f.Both? then s.fills[r := ShareOnly(f.view, f.at)] else s.fills - {r})
      else s
    case Share(r) =>
      if r in s.fills && s.fills[r].ShareOnly? then
        Late(s.cluster.(redis := Fresh(s.fills[r].view, s.cluster.now, cfg.redisTtl)), s.fills - {r})
      else s
  }

  ghost function LateRun(s: State, moves: seq<Move>, cfg: Config): Late {
    if moves == [] then Late(s, map[]) else After(LateRun(s, moves[..|moves| - 1], cfg), moves[|moves| - 1], cfg)
  }

  /** A fill that concerns the latest writer's process, or the shared copy, stores what the database holds. */
  predicate Timely(s: Late, m: Move) {
    match m
    case Keep(r, kept) =>
      kept && r in s.fills && !s.fills[r].ShareOnly? && s.cluster.owner == Some(s.fills[r].proc)
      ==> Ok(s.fills[r].view) == StoredView(s.cluster.db)
    case Share(r) =>
      r in s.fills && s.fills[r].ShareOnly? && s.cluster.owner.Some?
      ==> Ok(s.fills[r].view) == StoredView(s.cluster.db)
    case _ => true
  }

  lemma MoveKeepsOwnerIff(s: Late, m: Move, cfg: Config)
    requires OwnerCurrent(s.cluster)
    ensures OwnerCurrent(After(s, m, cfg).cluster) <==> Timely(s, m)
  {
    if m.Whole? {
      StepKeepsOwner(s.cluster, m.a, cfg);
    }
  }

  ghost predicate AlwaysCurrent(s: State, moves: seq<Move>, cfg: Config) {
    OwnerCurrent(LateRun(s, moves, cfg).cluster) && (moves == [] || AlwaysCurrent(s, moves[..|moves| - 1], cfg))
  }

  ghost predicate AlwaysTimely(s: State, moves: seq<Move>, cfg: Config) {
    moves == [] || (AlwaysTimely(s, moves[..|moves| - 1], cfg)
                    && Timely(LateRun(s, moves[..|moves| - 1], cfg), moves[|moves| - 1]))
  }

  /**
   In a run the copies that the latest writer's process answers from are current at every point if and only if
   every fill of one of them stores what the database holds at that moment.
  */
  lemma {:induction false} WriterCurrentIff(s: State, moves: seq<Move>, cfg: Config)
    requires Start(s)
    ensures AlwaysCurrent(s, moves, cfg) <==> AlwaysTimely(s, moves, cfg)
  {
    if moves != [] {
      var init := moves[..|moves| - 1];
      WriterCurrentIff(s, init, cfg);
      if AlwaysCurrent(s, init, cfg) {
        MoveKeepsOwnerIff(LateRun(s, init, cfg), moves[|moves| - 1], cfg);
      }
    }
  }

  /** Then that process answers with the stored view. */
  lemma TimelyWriterReadsItsWrite(s: State, moves: seq<Move>, cfg: Config)
    requires Start(s) && AlwaysTimely(s, moves, cfg)
    ensures var t := LateRun(s, moves, cfg).cluster; t.owner.Some? ==> Answer(t, t.owner.value) == StoredView(t.db)
  {
    WriterCurrentIff(s, moves, cfg);
  }

  lemma LateRunSnoc(s: State, moves: seq<Move>, m: Move, cfg: Config)
    ensures LateRun(s, moves + [m], cfg) == After(LateRun(s, moves, cfg), m, cfg)
  {
    assert (moves + [m])[..|moves|] == moves;
  }

  /**
   Otherwise it may answer with an older one, without any job: a read on the process finds the old content, the
   process stores an update, and the read then fills its memory.
  */
  lemma LateFillHidesWrite(s: State, u: Doc, cfg: Config) returns (moves: seq<Move>)
    requires Start(s) && StoredView(s.db).Ok? && Applied(s.db, u, cfg).Some?
    requires StoredView(s.db).value != View(Loaded(s.db) + u)
    ensures moves == [FindInDatabase(0, 0), Whole(Write(0, u, true)), Keep(0, true)]
    ensures var t := LateRun(s, moves, cfg).cluster;
            && t.owner == Some(0) && StoredView(t.db) == Ok(View(Loaded(s.db) + u))
            && Answer(t, 0) == StoredView(s.db) != StoredView(t.db)
  {
    var find := [FindInDatabase(0, 0)];
    var write := find + [Whole(Write(0, u, true))];
    moves := write + [Keep(0, true)];
    LateRunSnoc(s, [], FindInDatabase(0, 0), cfg);
    assert [] + find == find;
    LateRunSnoc(s, find, Whole(Write(0, u, true)), cfg);
    LateRunSnoc(s, write, Keep(0, true), cfg);
  }

  // ---------- How old an answer can be ----------

  /** A fill comes at most `delay` after its read. */
  predicate Within(s: Late, m: Move, delay: nat) {
    match m
    case Keep(r, _) => r in s.fills && !s.fills[r].ShareOnly? ==> s.cluster.now - s.fills[r].at <= delay
    case Share(r) => r in s.fills && s.fills[r].ShareOnly? ==> s.cluster.now - s.fills[r].at <= delay
    case _ => true
  }

  ghost predicate AlwaysWithin(s: State, moves: seq<Move>, delay: nat, cfg: Config) {
    moves == [] || (AlwaysWithin(s, moves[..|moves| - 1], delay, cfg)
                    && Within(LateRun(s, moves[..|moves| - 1], cfg), moves[|moves| - 1], delay))
  }

  /** A view found in Redis may be `redisMs` old already; one found in the database is not. */
  ghost predicate FillBacked(h: seq<Version>, now: int, f: Fill, redisMs: int) {
    f.at <= now && StoredDuring(h, Ok(f.view), f.at - (if f.KeepOnly? then redisMs else 0), now)
  }

  ghost predicate LateInv(s: Late, redisMs: int, memMs: int) {
    && Inv(s.cluster, redisMs, memMs)
    && forall r :: r in s.fills ==> FillBacked(s.cluster.history, s.cluster.now, s.fills[r], redisMs)
  }

  lemma ClusterOnlyAdds(s: State, a: Action, cfg: Config)
    ensures var t := Apply(s, a, cfg);
            && s.now <= t.now
            && (t.history == s.history || exists v: Version :: v.since == t.now && t.history == s.history + [v])
  {
    var t := Apply(s, a, cfg);
    if t.history != s.history {
      assert t.history == s.history + [Version(s.now, StoredView(t.db))];
    }
  }

  lemma FillStaysBacked(h: seq<Version>, now: int, g: seq<Version>, later: int, f: Fill, redisMs: int)
    requires FillBacked(h, now, f, redisMs) && now <= later && 0 <= redisMs
    requires g == h || exists v: Version :: v.since == later && g == h + [v]
    ensures FillBacked(g, later, f, redisMs)
  {
    var from := f.at - if f.KeepOnly? then redisMs else 0;
    var k :| StoredAs(h, k, Ok(f.view), from, now);
    assert StoredAs(g, k, Ok(f.view), from, later);
  }

  lemma WholeKeepsLateInv(s: Late, a: Action, cfg: Config, redisMs: int, memMs: int)
    requires LateInv(s, redisMs, memMs) && RedisMs(cfg) <= redisMs && redisMs + MemMs(cfg) <= memMs
    ensures LateInv(After(s, Whole(a), cfg), redisMs, memMs)
  {
    var t := Apply(s.cluster, a, cfg);
    StepKeepsInv(s.cluster, a, cfg, redisMs, memMs);
    ClusterOnlyAdds(s.cluster, a, cfg);
    forall r | r in s.fills ensures FillBacked(t.history, t.now, s.fills[r], redisMs) {
      FillStaysBacked(s.cluster.history, s.cluster.now, t.history, t.now, s.fills[r], redisMs);
    }
  }

  lemma FindKeepsLateInv(s: Late, m: Move, cfg: Config, redisMs: int, memMs: int)
    requires LateInv(s, redisMs, memMs) && 0 <= redisMs && (m.FindInDatabase? || m.FindInRedis?)
    ensures LateInv(After(s, m, cfg), redisMs, memMs)
  {
    var c := s.cluster;
    if m.FindInDatabase? && StoredView(c.db).Ok? {
      assert StoredAs(c.history, |c.history| - 1, StoredView(c.db), c.now, c.now);
    } else if m.FindInRedis? && Redis.Lookup(c.redis, c.now).Some? {
      LiveIsRecent(c.history, c.now, c.redis.value, redisMs, 0);
    }
  }

  /** What a fill stores is backed by its time to live, the delay, and how far behind it was already. */
  lemma FillIsBacked(h: seq<Version>, now: int, f: Fill, more: int, delay: nat, redisMs: int, ttl: int)
    requires FillBacked(h, now, f, redisMs) && now - f.at <= delay && 0 <= redisMs && 0 <= more
    requires more + delay + (if f.KeepOnly? then redisMs else 0) <= ttl
    ensures Backed(h, now, Redis.Entry(f.view, now + more), ttl)
  {
    var from := f.at - if f.KeepOnly? then redisMs else 0;
    var k :| StoredAs(h, k, Ok(f.view), from, now);
    assert StoredAs(h, k, Ok(f.view), now + more - ttl, now);
  }

  lemma FillKeepsLateInv(s: Late, m: Move, delay: nat, cfg: Config, redisMs: int, memMs: int)
    requires LateInv(s, redisMs, memMs) && Within(s, m, delay) && (m.Keep? || m.Share?)
    requires RedisMs(cfg) + delay <= redisMs && redisMs + MemMs(cfg) + delay <= memMs
    ensures LateInv(After(s, m, cfg), redisMs, memMs)
  {
    var c := s.cluster;
    if m.Keep? && m.r in s.fills && !s.fills[m.r].ShareOnly? {
      var f := s.fills[m.r];
      FillIsBacked(c.history, c.now, f, MemMs(cfg), delay, redisMs, memMs);
      AdoptKeepsInv(c, f.proc, Caches(Fresh(f.view, c.now, cfg.memTtl), c.redis), m.kept, redisMs, memMs);
    } else if m.Share? && m.r in s.fills && s.fills[m.r].ShareOnly? {
      FillIsBacked(c.history, c.now, s.fills[m.r], RedisMs(cfg), delay, redisMs, redisMs);
    }
  }

  lemma {:induction false} LateRunKeepsInv(s: State, moves: seq<Move>, delay: nat, cfg: Config)
    requires Start(s) && AlwaysWithin(s, moves, delay, cfg)
    ensures var redisMs := RedisMs(cfg) + delay;
            LateInv(LateRun(s, moves, cfg), redisMs, redisMs + MemMs(cfg) + delay)
  {
    if moves != [] {
      var init, m := moves[..|moves| - 1], moves[|moves| - 1];
      var redisMs := RedisMs(cfg) + delay;
      var memMs := redisMs + MemMs(cfg) + delay;
      LateRunKeepsInv(s, init, delay, cfg);
      match m
      case Whole(a) => WholeKeepsLateInv(LateRun(s, init, cfg), a, cfg, redisMs, memMs);
      case FindInDatabase(_, _) => FindKeepsLateInv(LateRun(s, init, cfg), m, cfg, redisMs, memMs);
      case FindInRedis(_, _) => FindKeepsLateInv(LateRun(s, init, cfg), m, cfg, redisMs, memMs);
      case _ => FillKeepsLateInv(LateRun(s, init, cfg), m, delay, cfg, redisMs, memMs);
    }
  }

  lemma CopiesLag(s: State, moves: seq<Move>, delay: nat, cfg: Config)
    requires Start(s) && AlwaysWithin(s, moves, delay, cfg)
    ensures Inv(LateRun(s, moves, cfg).cluster, RedisMs(cfg) + delay, RedisMs(cfg) + delay + MemMs(cfg) + delay)
  {
    LateRunKeepsInv(s, moves, delay, cfg);
  }

  /**
   In every run in which no fill comes more than `delay` after its read, what `getYState` answers was served by the
   database no longer ago than the two times to live and twice the delay: once on the way into Redis, and once on
   the way from there into memory.
  */
  lemma LateBoundedStaleness(s: State, moves: seq<Move>, proc: nat, delay: nat, cfg: Config)
    requires Start(s) && AlwaysWithin(s, moves, delay, cfg)
    ensures var t := LateRun(s, moves, cfg).cluster;
            StoredDuring(t.history, Answer(t, proc), t.now - RedisMs(cfg) - MemMs(cfg) - 2 * delay, t.now)
  {
    CopiesLag(s, moves, delay, cfg);
    AnswerIsRecent(LateRun(s, moves, cfg).cluster, proc, RedisMs(cfg) + delay,
                   RedisMs(cfg) + delay + MemMs(cfg) + delay);
  }
}
