/**
 Interleaved calls of `applyYUpdate` on one document, one database or Redis call at a time: load and
 merge, lock, commit, compact, release; the load happens before the lock. Replays (of the snapshot job
 and of `validateAndRepair`), compaction jobs, manual snapshots, rollbacks and crashes come in between,
 and none of them takes the lock.
*/
module Writers {
  import opened Common
  import opened Yjs
  import opened UpdateLog
  import opened DocumentStore
  import Lock
  import Redis
  import Replay

  datatype Phase =
    | Idle
    | Merged(update: Doc, base: Doc, at: nat)
    | Holding(update: Doc, base: Doc, at: nat, token: nat)
    | Committed(seqNo: nat, token: nat)
    | Compacted(token: nat)

  /**
   What a job holds between two of its calls: a replay its loop and how many updates were committed when
   it read its latest page, a compaction its cutoff, a manual snapshot the record it copies and its number.
  */
  datatype Job =
    | Replaying(loop: Replay.Loop, at: nat)
    | Compacting(cutoff: int)
    | Copying(content: Content)
    | Storing(content: Content, seqNo: int)

  /**
   `history` lists every committed update in commit order and `floor` is the highest sequence
   number compaction has dropped; both are bookkeeping. A phase remembers in `at` how many
   updates were committed when it loaded its base.
  */
  datatype State = State(now: int, db: Db, lock: Lock.Slot, tokens: nat, writers: map<nat, Phase>,
                         jobs: map<nat, Job>, history: seq<LogEntry>, floor: int)

  datatype Action =
    | Tick(ms: nat)
    | Load(w: nat, update: Doc)
    | TakeLock(w: nat)
    | CommitTx(w: nat)
    | Compact(w: nat)
    | ReleaseLock(w: nat)
    | Crash(w: nat)
    | StartReplay(j: nat)
    | ReadPage(j: nat)
    | Overwrite(j: nat)
    | ReadLatest(j: nat)
    | DropEntries(j: nat)
    | CopyContent(j: nat)
    | DrawNumber(j: nat)
    | StoreSnapshot(j: nat)
    | Rollback(id: nat)

  const INITIAL := State(0, Db(Some(0), None, [], []), None, 0, map[], map[], [], 0)

  function PhaseOf(s: State, w: nat): Phase {
    if w in s.writers then s.writers[w] else Idle
  }

  function To(s: State, w: nat, p: Phase): State {
    s.(writers := s.writers[w := p])
  }

  function WithJob(s: State, j: nat, job: Job): State {
    s.(jobs := s.jobs[j := job])
  }

  ghost function Apply(s: State, a: Action, cfg: Config): State {
    match a
    case Tick(ms) => s.(now := s.now + ms)
    case Load(w, u) => if PhaseOf(s, w).Idle? then To(s, w, Merged(u, Loaded(s.db), |s.history|)) else s
    case TakeLock(w) =>
      (match PhaseOf(s, w)
       case Merged(u, base, at) =>
         if Redis.Lookup(s.lock, s.now).Some? then To(s, w, Idle)
         else To(s, w, Holding(u, base, at, s.tokens)).(
                lock := Lock.Acquire(s.lock, s.now, s.tokens, LOCK_TTL_MS), tokens := s.tokens + 1)
       case _ => s)
    case CommitTx(w) =>
      (match PhaseOf(s, w)
       case Holding(u, base, at, token) =>
         var t := Commit(s.db, base + u, u, cfg);
         if t.None? then To(s, w, Compacted(token))
         else To(s, w, Committed(NextSeq(s.db), token)).(
                db := t.value, history := s.history + [LogEntry(NextSeq(s.db), Gzip(u))])
       case _ => s)
    case Compact(w) =>
      (match PhaseOf(s, w)
       case Committed(n, token) =>
         To(s, w, Compacted(token)).(
           db := Trimmed(s.db, n, cfg.keep), floor := if n > cfg.keep then Max(s.floor, n - cfg.keep) else s.floor)
       case _ => s)
    case ReleaseLock(w) =>
      (match PhaseOf(s, w)
       case Compacted(token) => To(s, w, Idle).(lock := Lock.Release(s.lock, s.now, token))
       case _ => s)
    case Crash(w) => To(s, w, Idle)
    case Rollback(id) => if RolledBack(s.db, id).Some? then s.(db := RolledBack(s.db, id).value) else s
    case _ => Work(s, a.j, a, cfg)
  }

  /** The next call of job `j`. */
  ghost function Work(s: State, j: nat, a: Action, cfg: Config): State {
    match a
    case StartReplay(_) => WithJob(s, j, Replaying(Replay.Running(0, {}), 0))
    case ReadLatest(_) => WithJob(s, j, Compacting(Latest(s.db.log) - cfg.keep))
    case CopyContent(_) => if s.db.content.Some? then WithJob(s, j, Copying(s.db.content.value)) else s
    case _ => if j in s.jobs then Continued(s, j, s.jobs[j], a) else s
  }

  ghost function Continued(s: State, j: nat, job: Job, a: Action): State {
    match (a, job)
    case (ReadPage(_), Replaying(Running(cursor, doc), _)) =>
      WithJob(s, j, Replaying(Replay.Turn(s.db.log, PAGE, cursor, doc), |s.history|))
    case (Overwrite(_), Replaying(Done(_, doc), _)) =>
      s.(jobs := s.jobs - {j}, db := s.db.(content := Some(Sealed(doc))))
    case (DropEntries(_), Compacting(cutoff)) =>
      if cutoff > 0
      then s.(jobs := s.jobs - {j}, db := s.db.(log := After(s.db.log, cutoff)), floor := Max(s.floor, cutoff))
      else s.(jobs := s.jobs - {j})
    case (DrawNumber(_), Copying(content)) =>
      WithJob(s, j, Storing(content, NextSeq(s.db))).(db := s.db.(row := Bumped(s.db)))
    case (StoreSnapshot(_), Storing(content, n)) =>
      s.(jobs := s.jobs - {j}, db := s.db.(snaps := s.db.snaps + [Snapshot(n, content)]))
    case _ => s
  }

  ghost function Run(actions: seq<Action>, cfg: Config): State {
    if actions == [] then INITIAL else Apply(Run(actions[..|actions| - 1], cfg), actions[|actions| - 1], cfg)
  }

  // ---------- The log ----------

  ghost predicate Numbered(es: seq<LogEntry>, last: int) {
    Ascending(es) && forall i :: 0 <= i < |es| ==> 1 <= es[i].seqNo <= last && es[i].update.Gzip?
  }

  /** Sequence numbers, the retained log, and what each writer may still compact. */
  ghost predicate LogInv(s: State, keep: nat) {
    && s.db.row.Some?
    && Numbered(s.history, s.db.row.value)
    && s.db.log == After(s.history, s.floor)
    && 0 <= s.floor <= Max(0, s.db.row.value - keep)
    && (forall w :: w in s.writers && s.writers[w].Committed? ==> s.writers[w].seqNo <= s.db.row.value)
    && Cutoffs(s.jobs, s.db.row.value - keep)
  }

  ghost predicate Cutoffs(jobs: map<nat, Job>, limit: int) {
    forall j :: j in jobs && jobs[j].Compacting? ==> jobs[j].cutoff <= limit
  }

  /** Steps that leave log and history alone keep the invariant. */
  lemma LogUntouched(s: State, t: State, keep: nat)
    requires LogInv(s, keep)
    requires t.history == s.history && t.db.log == s.db.log && t.floor == s.floor
    requires t.db.row.Some? && s.db.row.value <= t.db.row.value && Cutoffs(t.jobs, t.db.row.value - keep)
    requires forall w :: w in t.writers && t.writers[w].Committed? ==> w in s.writers && t.writers[w] == s.writers[w]
    ensures LogInv(t, keep)
  {
  }

  /** The next sequence number is above everything logged. */
  lemma NextGoesLast(s: State, update: Doc, keep: nat)
    requires LogInv(s, keep)
    ensures var e := LogEntry(s.db.row.value + 1, Gzip(update));
            && !HasSeq(s.db.log, e.seqNo) && Inserted(s.db.log, e) == s.db.log + [e]
            && s.db.log + [e] == After(s.history + [e], s.floor) && Ascending(s.history + [e])
  {
    assert s.history != [] ==> Latest(s.history) <= s.db.row.value;
    AppendToRetained(s.history, s.floor, LogEntry(s.db.row.value + 1, Gzip(update)));
  }

  lemma CommitAppends(db: Db, merged: Doc, update: Doc, cfg: Config)
    requires db.row.Some? && !HasSeq(db.log, NextSeq(db))
    ensures var c := Commit(db, merged, update, cfg);
            && c.Some? && c.value.log == Inserted(db.log, LogEntry(NextSeq(db), Gzip(update)))
            && c.value.row == Some(NextSeq(db)) && c.value.content == Some(Sealed(merged))
  {
  }

  /** What a commit does to a consistent state: it never aborts, and extends history and log alike. */
  lemma CommitEffect(s: State, w: nat, cfg: Config)
    requires LogInv(s, cfg.keep) && PhaseOf(s, w).Holding?
    ensures var p, t := PhaseOf(s, w), Apply(s, CommitTx(w), cfg);
            var e := LogEntry(s.db.row.value + 1, Gzip(p.update));
            && t.history == s.history + [e] && t.db.log == s.db.log + [e]
            && t.db.log == After(t.history, t.floor) && Ascending(t.history)
            && t.db.row == Some(s.db.row.value + 1) && t.floor == s.floor
            && Loaded(t.db) == p.base + p.update
            && t.writers == s.writers[w := Committed(e.seqNo, p.token)] && t.lock == s.lock && t.now == s.now
            && t.jobs == s.jobs
  {
    var p := PhaseOf(s, w);
    NextGoesLast(s, p.update, cfg.keep);
    CommitAppends(s.db, p.base + p.update, p.update, cfg);
  }

  /** Dropping entries up to `cutoff`, which lies at least `keep` below the version, keeps the invariant. */
  lemma DropKeepsLogInv(s: State, t: State, cutoff: int, keep: nat)
    requires LogInv(s, keep)
    requires 0 < cutoff <= s.db.row.value - keep
    requires t.history == s.history && t.db.row == s.db.row && Cutoffs(t.jobs, t.db.row.value - keep)
    requires t.db.log == After(s.db.log, cutoff) && t.floor == Max(s.floor, cutoff)
    requires forall w :: w in t.writers && t.writers[w].Committed? ==> w in s.writers && t.writers[w] == s.writers[w]
    ensures LogInv(t, keep)
  {
    AfterTwice(s.history, s.floor, cutoff);
  }

  lemma CompactKeepsLogInv(s: State, w: nat, cfg: Config)
    requires LogInv(s, cfg.keep)
    ensures LogInv(Apply(s, Compact(w), cfg), cfg.keep)
  {
    var p, t := PhaseOf(s, w), Apply(s, Compact(w), cfg);
    if p.Committed? && p.seqNo > cfg.keep {
      DropKeepsLogInv(s, t, p.seqNo - cfg.keep, cfg.keep);
    } else {
      LogUntouched(s, t, cfg.keep);
    }
  }

  lemma DropEntriesKeepsLogInv(s: State, j: nat, cfg: Config)
    requires LogInv(s, cfg.keep)
    ensures LogInv(Apply(s, DropEntries(j), cfg), cfg.keep)
  {
    var t := Apply(s, DropEntries(j), cfg);
    if j in s.jobs && s.jobs[j].Compacting? && s.jobs[j].cutoff > 0 {
      DropKeepsLogInv(s, t, s.jobs[j].cutoff, cfg.keep);
    } else {
      LogUntouched(s, t, cfg.keep);
    }
  }

  ghost predicate IsCommit(s: State, a: Action) {
    a.CommitTx? && PhaseOf(s, a.w).Holding?
  }

  /** The steps that neither commit nor drop entries. */
  lemma QuietEffect(s: State, a: Action, cfg: Config)
    requires !a.Compact? && !a.DropEntries? && !IsCommit(s, a)
    ensures var t := Apply(s, a, cfg);
            && t.history == s.history && t.db.log == s.db.log && t.floor == s.floor
            && (t.db.row == s.db.row || t.db.row == Bumped(s.db))
            && forall w :: w in t.writers && t.writers[w].Committed? ==> w in s.writers && t.writers[w] == s.writers[w]
  {
  }

  /** A compaction job's cutoff leaves `keep` numbers up to the version. */
  lemma QuietKeepsCutoffs(s: State, a: Action, cfg: Config)
    requires LogInv(s, cfg.keep) && !a.Compact? && !a.DropEntries? && !IsCommit(s, a)
    ensures Cutoffs(Apply(s, a, cfg).jobs, s.db.row.value - cfg.keep)
  {
    assert s.db.log != [] ==> s.db.log[|s.db.log| - 1] == s.history[|s.history| - 1];
    assert Latest(s.db.log) <= s.db.row.value;
  }

  lemma QuietKeepsLogInv(s: State, a: Action, cfg: Config)
    requires LogInv(s, cfg.keep)
    requires !a.Compact? && !a.DropEntries? && !IsCommit(s, a)
    ensures LogInv(Apply(s, a, cfg), cfg.keep)
  {
    QuietEffect(s, a, cfg);
    QuietKeepsCutoffs(s, a, cfg);
    LogUntouched(s, Apply(s, a, cfg), cfg.keep);
  }

  lemma CommitKeepsLogInv(s: State, w: nat, cfg: Config)
    requires LogInv(s, cfg.keep) && PhaseOf(s, w).Holding?
    ensures LogInv(Apply(s, CommitTx(w), cfg), cfg.keep)
  {
    CommitEffect(s, w, cfg);
    LogExtended(s, Apply(s, CommitTx(w), cfg), w, LogEntry(s.db.row.value + 1, Gzip(PhaseOf(s, w).update)), cfg.keep);
  }

  lemma LogExtended(s: State, t: State, w: nat, e: LogEntry, keep: nat)
    requires LogInv(s, keep) && e.seqNo == s.db.row.value + 1 && e.update.Gzip?
    requires t.history == s.history + [e] && t.db.log == After(t.history, t.floor) && Ascending(t.history)
    requires t.db.row == Some(e.seqNo) && t.floor == s.floor && t.jobs == s.jobs
    requires w in t.writers && t.writers[w].Committed? && t.writers[w].seqNo == e.seqNo
    requires forall v :: v in t.writers && v != w ==> v in s.writers && t.writers[v] == s.writers[v]
    ensures LogInv(t, keep)
  {
  }

  lemma StepKeepsLogInv(s: State, a: Action, cfg: Config)
    requires LogInv(s, cfg.keep)
    ensures LogInv(Apply(s, a, cfg), cfg.keep)
  {
    match a
    case CommitTx(w) =>
      if IsCommit(s, a) {
        CommitKeepsLogInv(s, w, cfg);
      } else {
        QuietKeepsLogInv(s, a, cfg);
      }
    case Compact(w) => CompactKeepsLogInv(s, w, cfg);
    case DropEntries(j) => DropEntriesKeepsLogInv(s, j, cfg);
    case _ => QuietKeepsLogInv(s, a, cfg);
  }

  lemma InitialLogInv(cfg: Config)
    ensures LogInv(INITIAL, cfg.keep)
  {
    assert After(INITIAL.history, 0) == [];
  }

  lemma {:induction false} RunKeepsLogInv(actions: seq<Action>, cfg: Config)
    ensures LogInv(Run(actions, cfg), cfg.keep)
  {
    if actions == [] {
      InitialLogInv(cfg);
    } else {
      RunKeepsLogInv(actions[..|actions| - 1], cfg);
      StepKeepsLogInv(Run(actions[..|actions| - 1], cfg), actions[|actions| - 1], cfg);
    }
  }

  /**
   In every interleaving the committed sequence numbers strictly increase in commit order and are
   at most the version, and the log is exactly the committed updates above what was compacted.
  */
  lemma LogIsCommitOrder(actions: seq<Action>, cfg: Config)
    ensures var s := Run(actions, cfg);
            && s.db.row.Some? && Numbered(s.history, s.db.row.value)
            && s.history == UpTo(s.history, s.floor) + s.db.log
  {
    RunKeepsLogInv(actions, cfg);
  }

  lemma RunSnoc(actions: seq<Action>, a: Action, cfg: Config)
    ensures Run(actions + [a], cfg) == Apply(Run(actions, cfg), a, cfg)
  {
    assert (actions + [a])[..|actions|] == actions;
  }

  /** All five steps of the call of writer `w`. */
  ghost function Called(s: State, w: nat, u: Doc, cfg: Config): State {
    var held := Apply(Apply(s, Load(w, u), cfg), TakeLock(w), cfg);
    Apply(Apply(Apply(held, CommitTx(w), cfg), Compact(w), cfg), ReleaseLock(w), cfg)
  }

  lemma CallOnFreeLock(s: State, w: nat, u: Doc, cfg: Config)
    requires PhaseOf(s, w).Idle? && Redis.Lookup(s.lock, s.now).None?
    ensures var t, applied := Called(s, w, u, cfg), Applied(s.db, u, cfg);
            && t.db == (if applied.Some? then applied.value else s.db)
            && |t.history| == |s.history| + (if applied.Some? then 1 else 0)
            && (applied.None? ==> t.history == s.history)
            && PhaseOf(t, w).Idle? && Redis.Lookup(t.lock, t.now).None?
  {
    var held := Apply(Apply(s, Load(w, u), cfg), TakeLock(w), cfg);
    assert PhaseOf(held, w) == Holding(u, Loaded(s.db), |s.history|, s.tokens);
    assert Redis.Lookup(held.lock, held.now) == Some(s.tokens);
  }

  lemma CallOnHeldLock(s: State, w: nat, u: Doc, cfg: Config)
    requires PhaseOf(s, w).Idle? && Redis.Lookup(s.lock, s.now).Some?
    ensures var t := Called(s, w, u, cfg);
            t.db == s.db && t.history == s.history && t.lock == s.lock && PhaseOf(t, w).Idle?
  {
    assert PhaseOf(Apply(Apply(s, Load(w, u), cfg), TakeLock(w), cfg), w).Idle?;
  }

  /**
   A call no other step interrupts does to the database exactly what `applyYUpdate` on its own does, whoever holds
   the lock: it commits exactly when it answers without an error, and behind a live lock it answers with a
   conflict and touches neither the database nor the lock.
  */
  lemma UninterruptedCallIsApplied(s: State, w: nat, u: Doc, cfg: Config)
    requires PhaseOf(s, w).Idle?
    ensures var t, r := Called(s, w, u, cfg), ApplyOutcome(s.db, s.lock, Some(u), s.now, cfg);
            && (r.Ok? <==> t.history != s.history)
            && t.db == (if r.Ok? then Applied(s.db, u, cfg).value else s.db)
            && (Redis.Lookup(s.lock, s.now).Some? ==> r == Err(Conflict) && t.db == s.db && t.lock == s.lock)
            && (Redis.Lookup(s.lock, s.now).None? ==> Redis.Lookup(t.lock, t.now).None?)
            && PhaseOf(t, w).Idle?
  {
    if Redis.Lookup(s.lock, s.now).Some? {
      CallOnHeldLock(s, w, u, cfg);
    } else {
      CallOnFreeLock(s, w, u, cfg);
    }
  }

  /** A manual snapshot no other step interrupts does what `createManualSnapshot` on its own does. */
  lemma UninterruptedSnapshot(s: State, j: nat, cfg: Config)
    requires j !in s.jobs
    ensures var t := Apply(Apply(Apply(s, CopyContent(j), cfg), DrawNumber(j), cfg), StoreSnapshot(j), cfg);
            t == if WithSnapshot(s.db).Some? then s.(db := WithSnapshot(s.db).value) else s
  {
    if s.db.content.Some? {
      var s1 := Apply(s, CopyContent(j), cfg);
      assert s1.jobs[j] == Copying(s.db.content.value);
      var s2 := Apply(s1, DrawNumber(j), cfg);
      assert s2.jobs[j] == Storing(s.db.content.value, NextSeq(s.db));
      assert s2.jobs - {j} == s.jobs;
    }
  }

  /** The same for the compaction job. */
  lemma UninterruptedCompaction(s: State, j: nat, cfg: Config)
    requires j !in s.jobs
    ensures var t := Apply(Apply(s, ReadLatest(j), cfg), DropEntries(j), cfg);
            t.db == DocumentStore.Compacted(s.db, cfg.keep) && t.jobs == s.jobs && t.history == s.history
  {
    var s1 := Apply(s, ReadLatest(j), cfg);
    assert s1.jobs[j] == Compacting(Latest(s.db.log) - cfg.keep);
    assert s1.jobs - {j} == s.jobs;
  }

  /** A replay that has read `n` pages and was not interrupted. */
  ghost function PagesRead(s: State, j: nat, n: nat, cfg: Config): State {
    if n == 0 then Apply(s, StartReplay(j), cfg) else Apply(PagesRead(s, j, n - 1, cfg), ReadPage(j), cfg)
  }

  lemma PageIsTurn(s: State, j: nat, cfg: Config)
    requires j in s.jobs && s.jobs[j].Replaying?
    ensures var t, loop := Apply(s, ReadPage(j), cfg), s.jobs[j].loop;
            t == if loop.Done? then s
                 else WithJob(s, j, Replaying(Replay.Turn(s.db.log, PAGE, loop.cursor, loop.doc), |s.history|))
  {
  }

  lemma {:induction false} PagesAreTurns(s: State, j: nat, n: nat, cfg: Config)
    ensures var t := PagesRead(s, j, n, cfg);
            && t == s.(jobs := t.jobs) && t.jobs.Keys == s.jobs.Keys + {j}
            && (forall i :: i in s.jobs && i != j ==> t.jobs[i] == s.jobs[i])
            && t.jobs[j].Replaying? && t.jobs[j].loop == Replay.Turns(s.db.log, PAGE, n)
  {
    if n > 0 {
      PagesAreTurns(s, j, n - 1, cfg);
      PageIsTurn(PagesRead(s, j, n - 1, cfg), j, cfg);
    }
  }

  /** An uninterrupted replay that ends, after however many pages, regenerates the content as the snapshot job does. */
  lemma UninterruptedReplay(s: State, j: nat, n: nat, cfg: Config)
    requires j !in s.jobs && Ascending(s.db.log) && Replay.Turns(s.db.log, PAGE, n).Done?
    ensures Apply(PagesRead(s, j, n, cfg), Overwrite(j), cfg) == s.(db := Regenerated(s.db))
  {
    PagesAreTurns(s, j, n, cfg);
    Replay.ReplayIsOneFold(s.db.log, PAGE, n);
    assert PagesRead(s, j, n, cfg).jobs - {j} == s.jobs;
  }

  // ---------- The lock ----------

  /** The token under which a call is in its locked section. */
  function TokenOf(p: Phase): Option<nat> {
    match p
    case Holding(_, _, _, token) => Some(token)
    case Committed(_, token) => Some(token)
    case Compacted(token) => Some(token)
    case _ => None
  }

  /** Tokens are drawn once: every one in use is below the next, and no two calls have the same. */
  ghost predicate TokensDistinct(s: State) {
    && (s.lock.Some? ==> s.lock.value.value < s.tokens)
    && (forall w :: w in s.writers && TokenOf(s.writers[w]).Some? ==> TokenOf(s.writers[w]).value < s.tokens)
    && (forall v, w :: v in s.writers && w in s.writers && v != w && TokenOf(s.writers[v]).Some? ==>
          TokenOf(s.writers[v]) != TokenOf(s.writers[w]))
  }

  lemma TokenEffect(s: State, a: Action, w: nat, cfg: Config)
    ensures var t := Apply(s, a, cfg);
            && s.tokens <= t.tokens <= s.tokens + 1
            && (TokenOf(PhaseOf(t, w)).Some? ==>
                  || TokenOf(PhaseOf(t, w)) == TokenOf(PhaseOf(s, w))
                  || (TokenOf(PhaseOf(t, w)) == Some(s.tokens) && a == TakeLock(w) && t.tokens == s.tokens + 1))
  {
  }

  lemma LockEffect(s: State, a: Action, cfg: Config)
    ensures var t := Apply(s, a, cfg);
            && (t.lock == s.lock || t.lock == None
                || (t.lock.Some? && t.lock.value.value == s.tokens && t.tokens == s.tokens + 1))
  {
  }

  lemma StepKeepsTokens(s: State, a: Action, cfg: Config)
    requires TokensDistinct(s)
    ensures TokensDistinct(Apply(s, a, cfg))
  {
    var t := Apply(s, a, cfg);
    LockEffect(s, a, cfg);
    forall w | w in t.writers && TokenOf(t.writers[w]).Some?
      ensures TokenOf(t.writers[w]).value < t.tokens
      ensures forall v :: v in t.writers && v != w ==> TokenOf(t.writers[v]) != TokenOf(t.writers[w])
    {
      TokenEffect(s, a, w, cfg);
      forall v | v in t.writers && v != w ensures TokenOf(t.writers[v]) != TokenOf(t.writers[w]) {
        TokenEffect(s, a, v, cfg);
      }
    }
  }

  lemma {:induction false} RunKeepsTokens(actions: seq<Action>, cfg: Config)
    ensures TokensDistinct(Run(actions, cfg))
  {
    if actions != [] {
      RunKeepsTokens(actions[..|actions| - 1], cfg);
      StepKeepsTokens(Run(actions[..|actions| - 1], cfg), actions[|actions| - 1], cfg);
    }
  }

  ghost function Later(s: State, tail: seq<Action>, cfg: Config): State
    decreases |tail|
  {
    if tail == [] then s else Later(Apply(s, tail[0], cfg), tail[1..], cfg)
  }

  lemma {:induction false} TimePasses(s: State, tail: seq<Action>, cfg: Config)
    ensures s.now <= Later(s, tail, cfg).now
    decreases |tail|
  {
    if tail != [] {
      TimePasses(Apply(s, tail[0], cfg), tail[1..], cfg);
    }
  }

  /** Writer `w` holds the lock until `until`. */
  ghost predicate Owns(s: State, w: nat, token: nat, until: int) {
    s.lock == Some(Redis.Entry(token, until)) && s.now <= until && TokensDistinct(s)
    && forall v :: v in s.writers && v != w ==> TokenOf(s.writers[v]) != Some(token)
  }

  lemma StepKeepsLock(s: State, a: Action, w: nat, token: nat, until: int, cfg: Config)
    requires Owns(s, w, token, until) && a != ReleaseLock(w) && Apply(s, a, cfg).now <= until
    ensures Apply(s, a, cfg).lock == s.lock
    ensures forall v :: PhaseOf(Apply(s, a, cfg), v).Holding? ==> PhaseOf(Apply(s, a, cfg), v) == PhaseOf(s, v)
  {
  }

  lemma StepKeepsOwner(s: State, a: Action, w: nat, token: nat, until: int, cfg: Config)
    requires Owns(s, w, token, until) && a != ReleaseLock(w) && Apply(s, a, cfg).now <= until
    ensures Owns(Apply(s, a, cfg), w, token, until)
    ensures forall v :: PhaseOf(Apply(s, a, cfg), v).Holding? ==> PhaseOf(Apply(s, a, cfg), v) == PhaseOf(s, v)
  {
    var t := Apply(s, a, cfg);
    StepKeepsTokens(s, a, cfg);
    StepKeepsLock(s, a, w, token, until, cfg);
    forall v | v in t.writers && v != w ensures TokenOf(t.writers[v]) != Some(token) {
      TokenEffect(s, a, v, cfg);
    }
  }

  /**
   While a call holds the lock nobody else gets it, in every continuation in which that call does not release it,
   crashes included: whoever is in the locked section before its commit was there already.
  */
  lemma {:induction false} OthersAreLockedOut(s: State, tail: seq<Action>, w: nat, token: nat, until: int, cfg: Config)
    requires Owns(s, w, token, until) && ReleaseLock(w) !in tail && Later(s, tail, cfg).now <= until
    ensures var t := Later(s, tail, cfg);
            Owns(t, w, token, until) && forall v :: PhaseOf(t, v).Holding? ==> PhaseOf(t, v) == PhaseOf(s, v)
    decreases |tail|
  {
    if tail != [] {
      TimePasses(Apply(s, tail[0], cfg), tail[1..], cfg);
      StepKeepsOwner(s, tail[0], w, token, until, cfg);
      OthersAreLockedOut(Apply(s, tail[0], cfg), tail[1..], w, token, until, cfg);
    }
  }

  /** In every run, whoever takes the lock owns it for `LOCK_TTL_MS`. */
  lemma TakingOwns(actions: seq<Action>, w: nat, cfg: Config)
    requires var s := Run(actions, cfg); PhaseOf(s, w).Merged? && Redis.Lookup(s.lock, s.now).None?
    ensures var s := Run(actions, cfg);
            var t := Apply(s, TakeLock(w), cfg);
            PhaseOf(t, w).Holding? && Owns(t, w, s.tokens, s.now + LOCK_TTL_MS)
  {
    RunKeepsTokens(actions, cfg);
    StepKeepsTokens(Run(actions, cfg), TakeLock(w), cfg);
  }

  // ---------- What compaction leaves ----------

  /**
   What compacting call `w` leaves: an entry stays if and only if it is among the last `keep` numbers up to the
   call's own or above them, and the log is within `keep` entries plus what was committed since.
  */
  ghost predicate Leaves(s: State, t: State, w: nat, keep: nat)
    requires PhaseOf(s, w).Committed?
  {
    var n := PhaseOf(s, w).seqNo;
    && s.db.row.Some? && |t.db.log| <= s.db.row.value - n + keep
    && forall i :: 0 <= i < |s.db.log| ==> (s.db.log[i] in t.db.log <==> n - keep < s.db.log[i].seqNo)
  }

  lemma CompactTrims(s: State, w: nat, cfg: Config)
    requires PhaseOf(s, w).Committed?
    ensures Apply(s, Compact(w), cfg).db == Trimmed(s.db, PhaseOf(s, w).seqNo, cfg.keep)
  {
  }

  lemma CompactLeavesAt(s: State, w: nat, cfg: Config)
    requires PhaseOf(s, w).Committed? && LogInv(s, cfg.keep)
    ensures Leaves(s, Apply(s, Compact(w), cfg), w, cfg.keep)
  {
    CompactTrims(s, w, cfg);
    LogIsNumbered(s, cfg.keep);
    TrimmedIs(s.db, PhaseOf(s, w).seqNo, cfg.keep, s.db.row.value);
  }

  /** In every run. */
  lemma CompactLeaves(actions: seq<Action>, w: nat, cfg: Config)
    requires PhaseOf(Run(actions, cfg), w).Committed?
    ensures Leaves(Run(actions, cfg), Apply(Run(actions, cfg), Compact(w), cfg), w, cfg.keep)
  {
    RunKeepsLogInv(actions, cfg);
    CompactLeavesAt(Run(actions, cfg), w, cfg);
  }

  lemma LogIsNumbered(s: State, keep: nat)
    requires LogInv(s, keep)
    ensures Numbered(s.db.log, s.db.row.value)
  {
  }
}
