/**
 What interleaved writers, replays and rollbacks do to the content: when every committed update is
 still in it, and when a replay of the log cannot exceed it.
*/
module Losses {
  import opened Common
  import opened Yjs
  import opened UpdateLog
  import opened DocumentStore
  import opened Writers
  import Replay
  import Redis

  /** `p` holds at every point of the run. */
  ghost predicate EachState(actions: seq<Action>, cfg: Config, p: State -> bool) {
    p(Run(actions, cfg)) && (actions == [] || EachState(actions[..|actions| - 1], cfg, p))
  }

  /** `q` holds of every step of the run and the state it starts in. */
  ghost predicate EachStep(actions: seq<Action>, cfg: Config, q: (State, Action) -> bool) {
    actions == [] || (EachStep(actions[..|actions| - 1], cfg, q)
                      && q(Run(actions[..|actions| - 1], cfg), actions[|actions| - 1]))
  }

  /** What a step stores as the content, if it stores one. */
  function NewContent(s: State, a: Action): Option<Doc> {
    match a
    case CommitTx(w) =>
      (match PhaseOf(s, w)
       case Holding(u, base, _, _) => Some(base + u)
       case _ => None)
    case Overwrite(j) =>
      if j in s.jobs && s.jobs[j].Replaying? && s.jobs[j].loop.Done? then Some(s.jobs[j].loop.doc) else None
    case Rollback(id) => if id < |s.db.snaps| then Some(Raw(s.db.snaps[id].content.state)) else None
    case _ => None
  }

  lemma ContentEffect(s: State, a: Action, cfg: Config)
    requires LogInv(s, cfg.keep)
    ensures var t := Apply(s, a, cfg);
            Loaded(t.db) == if NewContent(s, a).Some? then NewContent(s, a).value else Loaded(s.db)
  {
    if IsCommit(s, a) {
      CommitEffect(s, a.w, cfg);
    }
  }

  lemma HistoryEffect(s: State, a: Action, cfg: Config)
    requires LogInv(s, cfg.keep)
    ensures var t := Apply(s, a, cfg);
            if IsCommit(s, a) then
              |t.history| == |s.history| + 1 && Decoded(t.history) == Decoded(s.history) + PhaseOf(s, a.w).update
            else t.history == s.history
  {
    if IsCommit(s, a) {
      CommitEffect(s, a.w, cfg);
      DecodedSnoc(s.history, LogEntry(s.db.row.value + 1, Gzip(PhaseOf(s, a.w).update)));
    }
  }

  // ---------- Nothing but committed updates ----------

  ghost predicate HasBase(p: Phase) {
    p.Merged? || p.Holding?
  }

  /** The document a job carries. */
  function Carries(job: Job): Doc {
    match job
    case Replaying(loop, _) => loop.doc
    case Compacting(_) => {}
    case Copying(c) => Raw(c.state)
    case Storing(c, _) => Raw(c.state)
  }

  /** Content, loaded bases, jobs and snapshots hold nothing outside `d`. */
  ghost predicate AllWithin(s: State, d: Doc) {
    && Loaded(s.db) <= d
    && (forall w :: w in s.writers && HasBase(s.writers[w]) ==> s.writers[w].base <= d)
    && (forall j :: j in s.jobs ==> Carries(s.jobs[j]) <= d)
    && (forall i :: 0 <= i < |s.db.snaps| ==> Raw(s.db.snaps[i].content.state) <= d)
  }

  lemma CommitSnapshots(s: State, w: nat, cfg: Config)
    requires LogInv(s, cfg.keep) && PhaseOf(s, w).Holding?
    ensures var t := Apply(s, CommitTx(w), cfg);
            forall i :: 0 <= i < |t.db.snaps| ==>
              if i < |s.db.snaps| then t.db.snaps[i] == s.db.snaps[i] else t.db.snaps[i].content == t.db.content.value
  {
    CommitEffect(s, w, cfg);
  }

  lemma CommitStaysWithin(s: State, w: nat, cfg: Config)
    requires LogInv(s, cfg.keep) && AllWithin(s, Decoded(s.history)) && PhaseOf(s, w).Holding?
    ensures AllWithin(Apply(s, CommitTx(w), cfg), Decoded(Apply(s, CommitTx(w), cfg).history))
  {
    var t := Apply(s, CommitTx(w), cfg);
    CommitEffect(s, w, cfg);
    HistoryEffect(s, CommitTx(w), cfg);
    CommitSnapshots(s, w, cfg);
    GrownWithin(s, t, w, Decoded(s.history), Decoded(t.history));
  }

  lemma GrownWithin(s: State, t: State, w: nat, d: Doc, e: Doc)
    requires AllWithin(s, d) && d <= e && Loaded(t.db) <= e && t.db.content.Some? && t.jobs == s.jobs
    requires forall v :: v in t.writers && v != w ==> v in s.writers && t.writers[v] == s.writers[v]
    requires w in t.writers && !HasBase(t.writers[w])
    requires forall i :: 0 <= i < |t.db.snaps| ==>
               if i < |s.db.snaps| then t.db.snaps[i] == s.db.snaps[i] else t.db.snaps[i].content == t.db.content.value
    ensures AllWithin(t, e)
  {
  }

  lemma LogWithinHistory(s: State, keep: nat)
    requires LogInv(s, keep)
    ensures Decoded(s.db.log) <= Decoded(s.history)
    ensures Ascending(s.db.log) && Replay.AllDecodable(s.db.log) && Rebuilt(s.db) == Decoded(s.db.log)
    ensures Latest(s.db.log) <= s.db.row.value
  {
    DecodedSplits(s.history, s.floor);
    assert forall i :: 0 <= i < |s.db.log| ==> s.db.log[i] in s.history;
    RankIs(s.db.log, 0, 0);
  }

  /**
   A running replay has joined the retained log up to its cursor, whatever was committed or compacted
   meanwhile; one that has read its last page covers the retained log until the next commit.
  */
  ghost predicate ReplaysCover(s: State) {
    && s.db.row.Some?
    && forall j :: j in s.jobs && s.jobs[j].Replaying? ==>
         match s.jobs[j].loop
         case Running(cursor, doc) => cursor <= s.db.row.value && Replay.HasRead(s.db.log, cursor, doc)
         case Done(_, doc) => s.jobs[j].at <= |s.history| && (s.jobs[j].at == |s.history| ==> Decoded(s.db.log) <= doc)
  }

  /** The turn a page read makes, from a running loop. */
  lemma PageEffect(s: State, j: nat, cfg: Config)
    requires LogInv(s, cfg.keep) && ReplaysCover(s)
    requires j in s.jobs && s.jobs[j].Replaying? && s.jobs[j].loop.Running?
    ensures var t, before := Apply(s, ReadPage(j), cfg), s.jobs[j].loop;
            var after := Replay.Turn(s.db.log, PAGE, before.cursor, before.doc);
            && t == WithJob(s, j, Replaying(after, |s.history|))
            && after.doc <= before.doc + Decoded(s.history)
            && (after.Done? ==> Decoded(s.db.log) <= after.doc)
            && (after.Running? ==> after.cursor <= s.db.row.value && Replay.HasRead(s.db.log, after.cursor, after.doc))
  {
    var loop := s.jobs[j].loop;
    LogWithinHistory(s, cfg.keep);
    Replay.TurnReads(s.db.log, PAGE, loop.cursor, loop.doc);
  }

  lemma PageStaysWithin(s: State, j: nat, cfg: Config)
    requires LogInv(s, cfg.keep) && AllWithin(s, Decoded(s.history)) && ReplaysCover(s)
    requires j in s.jobs && s.jobs[j].Replaying? && s.jobs[j].loop.Running?
    ensures var t := Apply(s, ReadPage(j), cfg); AllWithin(t, Decoded(t.history)) && ReplaysCover(t)
  {
    PageEffect(s, j, cfg);
    assert Carries(s.jobs[j]) <= Decoded(s.history);
  }

  lemma CommitKeepsReplays(s: State, w: nat, cfg: Config)
    requires LogInv(s, cfg.keep) && ReplaysCover(s) && PhaseOf(s, w).Holding?
    ensures ReplaysCover(Apply(s, CommitTx(w), cfg))
  {
    CommitEffect(s, w, cfg);
  }

  lemma DropKeepsReplays(s: State, t: State, cutoff: int)
    requires ReplaysCover(s) && t.db.row == s.db.row && t.db.log == After(s.db.log, cutoff) && t.history == s.history
    requires forall j :: j in t.jobs ==> j in s.jobs && t.jobs[j] == s.jobs[j]
    ensures ReplaysCover(t)
  {
    DecodedSplits(s.db.log, cutoff);
  }

  ghost predicate Pages(s: State, a: Action) {
    a.ReadPage? && a.j in s.jobs && s.jobs[a.j].Replaying? && s.jobs[a.j].loop.Running?
  }

  /** Steps that neither commit nor read a page only move documents about. */
  lemma QuietStaysWithin(s: State, a: Action, cfg: Config)
    requires AllWithin(s, Decoded(s.history)) && !IsCommit(s, a) && !Pages(s, a)
    ensures AllWithin(Apply(s, a, cfg), Decoded(s.history)) && Apply(s, a, cfg).history == s.history
  {
  }

  lemma QuietKeepsReplays(s: State, a: Action, cfg: Config)
    requires LogInv(s, cfg.keep) && ReplaysCover(s) && !IsCommit(s, a) && !Pages(s, a)
    ensures ReplaysCover(Apply(s, a, cfg))
  {
    var t := Apply(s, a, cfg);
    match a
    case Compact(w) =>
      if PhaseOf(s, w).Committed? && PhaseOf(s, w).seqNo > cfg.keep {
        DropKeepsReplays(s, t, PhaseOf(s, w).seqNo - cfg.keep);
      }
    case DropEntries(j) =>
      if j in s.jobs && s.jobs[j].Compacting? && s.jobs[j].cutoff > 0 {
        DropKeepsReplays(s, t, s.jobs[j].cutoff);
      }
    case _ => OthersKeepReplays(s, a, cfg);
  }

  lemma OthersKeepReplays(s: State, a: Action, cfg: Config)
    requires LogInv(s, cfg.keep) && ReplaysCover(s) && !IsCommit(s, a) && !Pages(s, a)
    requires !a.Compact? && !a.DropEntries?
    ensures ReplaysCover(Apply(s, a, cfg))
  {
    QuietEffect(s, a, cfg);
    RankIs(s.db.log, 0, 0);
  }

  ghost predicate Inv(s: State, keep: nat) {
    LogInv(s, keep) && AllWithin(s, Decoded(s.history)) && ReplaysCover(s)
  }

  lemma StepKeepsInv(s: State, a: Action, cfg: Config)
    requires Inv(s, cfg.keep)
    ensures Inv(Apply(s, a, cfg), cfg.keep)
  {
    StepKeepsLogInv(s, a, cfg);
    if IsCommit(s, a) {
      CommitStaysWithin(s, a.w, cfg);
      CommitKeepsReplays(s, a.w, cfg);
    } else if Pages(s, a) {
      PageStaysWithin(s, a.j, cfg);
    } else {
      QuietStaysWithin(s, a, cfg);
      QuietKeepsReplays(s, a, cfg);
    }
  }

  lemma {:induction false} RunKeepsInv(actions: seq<Action>, cfg: Config)
    ensures Inv(Run(actions, cfg), cfg.keep)
  {
    if actions == [] {
      InitialLogInv(cfg);
    } else {
      RunKeepsInv(actions[..|actions| - 1], cfg);
      StepKeepsInv(Run(actions[..|actions| - 1], cfg), actions[|actions| - 1], cfg);
    }
  }

  /** In every run content, loaded bases, replays and snapshots hold only committed updates. */
  lemma ContentWithinHistory(actions: seq<Action>, cfg: Config)
    ensures AllWithin(Run(actions, cfg), Decoded(Run(actions, cfg).history))
  {
    RunKeepsInv(actions, cfg);
  }

  // ---------- When nothing is lost ----------

  /** The content joins every committed update. */
  ghost predicate Exact(s: State) {
    Loaded(s.db) == Decoded(s.history)
  }

  /** What the step is about to store contains what is stored: the caller could check that beforehand. */
  ghost predicate Lossless(s: State, a: Action) {
    NewContent(s, a).Some? ==> Loaded(s.db) <= NewContent(s, a).value
  }

  lemma NewContentWithin(s: State, a: Action, cfg: Config)
    requires Inv(s, cfg.keep) && NewContent(s, a).Some?
    ensures NewContent(s, a).value <= Decoded(Apply(s, a, cfg).history)
  {
    StepKeepsInv(s, a, cfg);
    ContentEffect(s, a, cfg);
  }

  lemma StepIsExactIff(s: State, a: Action, cfg: Config)
    requires Inv(s, cfg.keep) && Exact(s)
    ensures Exact(Apply(s, a, cfg)) <==> Lossless(s, a)
  {
    ContentEffect(s, a, cfg);
    HistoryEffect(s, a, cfg);
    if NewContent(s, a).Some? {
      NewContentWithin(s, a, cfg);
    }
  }

  /**
   In a run no committed update is ever missing from the content if and only if every commit, every
   overwrite by a replay and every rollback stores a document that contains the content it replaces.
  */
  lemma {:induction false} NothingLostIff(actions: seq<Action>, cfg: Config)
    ensures EachState(actions, cfg, Exact) <==> EachStep(actions, cfg, Lossless)
  {
    if actions != [] {
      var init := actions[..|actions| - 1];
      NothingLostIff(init, cfg);
      RunKeepsInv(init, cfg);
      if EachState(init, cfg, Exact) {
        StepIsExactIff(Run(init, cfg), actions[|actions| - 1], cfg);
      }
    }
  }

  /** Neither a commit nor an overwrite by a replay comes after an unseen commit; nothing is rolled back. */
  predicate UpToDate(s: State, a: Action) {
    match a
    case CommitTx(w) => PhaseOf(s, w).Holding? ==> PhaseOf(s, w).at == |s.history|
    case Overwrite(j) => NewContent(s, a).Some? ==> s.jobs[j].at == |s.history|
    case Rollback(id) => NewContent(s, a).None?
    case _ => true
  }

  /** The same, and no replay overwrites the content. */
  predicate Serial(s: State, a: Action) {
    UpToDate(s, a) && (a.Overwrite? ==> NewContent(s, a).None?)
  }

  /** Up-to-date bases are the content. */
  ghost predicate BasesCurrent(s: State) {
    forall w :: w in s.writers && HasBase(s.writers[w]) && s.writers[w].at == |s.history| ==>
      s.writers[w].base == Loaded(s.db)
  }

  ghost predicate BasesAreOld(s: State) {
    forall w :: w in s.writers && HasBase(s.writers[w]) ==> s.writers[w].at <= |s.history|
  }

  lemma BasesEffect(s: State, a: Action, cfg: Config)
    ensures var t := Apply(s, a, cfg);
            forall w :: w in t.writers && HasBase(t.writers[w]) ==>
              || (w in s.writers && HasBase(s.writers[w])
                  && t.writers[w].base == s.writers[w].base && t.writers[w].at == s.writers[w].at)
              || (t.writers[w].base == Loaded(s.db) && t.writers[w].at == |s.history| && a.Load?)
  {
  }

  lemma StepKeepsBases(s: State, a: Action, cfg: Config)
    requires LogInv(s, cfg.keep) && BasesAreOld(s)
    ensures BasesAreOld(Apply(s, a, cfg))
    ensures BasesCurrent(s) && Serial(s, a) ==> BasesCurrent(Apply(s, a, cfg))
  {
    BasesEffect(s, a, cfg);
    HistoryEffect(s, a, cfg);
    ContentEffect(s, a, cfg);
  }

  lemma {:induction false} SerialRunIsLossless(actions: seq<Action>, cfg: Config)
    requires EachStep(actions, cfg, Serial)
    ensures EachStep(actions, cfg, Lossless) && BasesAreOld(Run(actions, cfg)) && BasesCurrent(Run(actions, cfg))
  {
    if actions != [] {
      var init := actions[..|actions| - 1];
      SerialRunIsLossless(init, cfg);
      RunKeepsInv(init, cfg);
      StepKeepsBases(Run(init, cfg), actions[|actions| - 1], cfg);
    }
  }

  /** In particular nothing is lost when no read-to-commit windows overlap and nothing else replaces the content. */
  lemma SerialWritersLoseNothing(actions: seq<Action>, cfg: Config)
    requires EachStep(actions, cfg, Serial)
    ensures EachState(actions, cfg, Exact)
    ensures var s := Run(actions, cfg); Loaded(s.db) == Decoded(Dropped(s)) + Decoded(s.db.log)
  {
    SerialRunIsLossless(actions, cfg);
    NothingLostIff(actions, cfg);
    RunKeepsInv(actions, cfg);
    DecodedSplits(Run(actions, cfg).history, Run(actions, cfg).floor);
  }

  ghost function Dropped(s: State): seq<LogEntry> {
    UpTo(s.history, s.floor)
  }

  // ---------- What a replay of the log would yield ----------

  /** The content contains the retained log, so a replay started now could not add to it. */
  ghost predicate Covering(s: State) {
    Rebuilt(s.db) <= Loaded(s.db)
  }

  /** What the step is about to store contains the retained log. */
  ghost predicate KeepsLog(s: State, a: Action) {
    NewContent(s, a).Some? ==> Decoded(s.db.log) <= NewContent(s, a).value
  }

  lemma DropEffect(s: State, a: Action, cfg: Config)
    requires a.Compact? || a.DropEntries?
    ensures Decoded(Apply(s, a, cfg).db.log) <= Decoded(s.db.log) && NewContent(s, a).None?
  {
    match a
    case Compact(w) =>
      if PhaseOf(s, w).Committed? {
        DecodedSplits(s.db.log, PhaseOf(s, w).seqNo - cfg.keep);
      }
    case DropEntries(j) =>
      if j in s.jobs && s.jobs[j].Compacting? {
        DecodedSplits(s.db.log, s.jobs[j].cutoff);
      }
  }

  lemma LogEffect(s: State, a: Action, cfg: Config)
    requires LogInv(s, cfg.keep)
    ensures var t := Apply(s, a, cfg);
            if IsCommit(s, a) then Decoded(t.db.log) == Decoded(s.db.log) + PhaseOf(s, a.w).update
            else Decoded(t.db.log) <= Decoded(s.db.log) && (NewContent(s, a).Some? ==> t.db.log == s.db.log)
  {
    if IsCommit(s, a) {
      CommitEffect(s, a.w, cfg);
      DecodedSnoc(s.db.log, LogEntry(s.db.row.value + 1, Gzip(PhaseOf(s, a.w).update)));
    } else if a.Compact? || a.DropEntries? {
      DropEffect(s, a, cfg);
    } else {
      QuietEffect(s, a, cfg);
    }
  }

  lemma StepIsCoveringIff(s: State, a: Action, cfg: Config)
    requires LogInv(s, cfg.keep) && Covering(s)
    ensures Covering(Apply(s, a, cfg)) <==> KeepsLog(s, a)
  {
    RebuiltIsLog(s, cfg.keep);
    StepKeepsLogInv(s, a, cfg);
    RebuiltIsLog(Apply(s, a, cfg), cfg.keep);
    ContentEffect(s, a, cfg);
    LogEffect(s, a, cfg);
  }

  lemma RebuiltIsLog(s: State, keep: nat)
    requires LogInv(s, keep)
    ensures Rebuilt(s.db) == Decoded(s.db.log)
  {
    LogWithinHistory(s, keep);
  }

  /** In a run a replay of the log never exceeds the content iff whatever replaces the content contains the log. */
  lemma {:induction false} RebuildWithinContentIff(actions: seq<Action>, cfg: Config)
    ensures EachState(actions, cfg, Covering) <==> EachStep(actions, cfg, KeepsLog)
  {
    if actions == [] {
      assert Rebuilt(INITIAL.db) == {};
    } else {
      var init := actions[..|actions| - 1];
      RebuildWithinContentIff(init, cfg);
      RunKeepsInv(init, cfg);
      if EachState(init, cfg, Covering) {
        StepIsCoveringIff(Run(init, cfg), actions[|actions| - 1], cfg);
      }
    }
  }

  /** Up-to-date bases contain the retained log. */
  ghost predicate BasesCover(s: State) {
    forall w :: w in s.writers && HasBase(s.writers[w]) && s.writers[w].at == |s.history| ==>
      Decoded(s.db.log) <= s.writers[w].base
  }

  lemma StepKeepsBasesCover(s: State, a: Action, cfg: Config)
    requires LogInv(s, cfg.keep) && BasesAreOld(s) && BasesCover(s) && Covering(s)
    ensures BasesCover(Apply(s, a, cfg))
  {
    RebuiltIsLog(s, cfg.keep);
    BasesEffect(s, a, cfg);
    HistoryEffect(s, a, cfg);
    LogEffect(s, a, cfg);
    NewBasesCover(s, Apply(s, a, cfg));
  }

  lemma NewBasesCover(s: State, t: State)
    requires BasesAreOld(s) && BasesCover(s) && Decoded(s.db.log) <= Loaded(s.db)
    requires |t.history| > |s.history| || (t.history == s.history && Decoded(t.db.log) <= Decoded(s.db.log))
    requires forall w :: w in t.writers && HasBase(t.writers[w]) ==>
               || (w in s.writers && HasBase(s.writers[w])
                   && t.writers[w].base == s.writers[w].base && t.writers[w].at == s.writers[w].at)
               || (t.writers[w].base == Loaded(s.db) && t.writers[w].at == |s.history|)
    ensures BasesCover(t)
  {
  }

  lemma {:induction false} UpToDateRunKeepsLog(actions: seq<Action>, cfg: Config)
    requires EachStep(actions, cfg, UpToDate)
    ensures EachStep(actions, cfg, KeepsLog) && BasesAreOld(Run(actions, cfg)) && BasesCover(Run(actions, cfg))
  {
    if actions != [] {
      var init := actions[..|actions| - 1];
      UpToDateRunKeepsLog(init, cfg);
      RebuildWithinContentIff(init, cfg);
      RunKeepsInv(init, cfg);
      StepKeepsBases(Run(init, cfg), actions[|actions| - 1], cfg);
      StepKeepsBasesCover(Run(init, cfg), actions[|actions| - 1], cfg);
    }
  }

  /**
   In particular, with replays among the steps: when no commit falls into the window of another, nor
   between the last page of a replay and its overwrite, a replay never exceeds the content, which never
   exceeds what was committed. Commits between the earlier pages do no harm.
  */
  lemma RebuildWithinContent(actions: seq<Action>, cfg: Config)
    requires EachStep(actions, cfg, UpToDate)
    ensures EachState(actions, cfg, Covering)
    ensures var s := Run(actions, cfg); Rebuilt(s.db) <= Loaded(s.db) <= Decoded(s.history)
  {
    UpToDateRunKeepsLog(actions, cfg);
    RebuildWithinContentIff(actions, cfg);
    RunKeepsInv(actions, cfg);
  }

  /** While nothing is lost, a replay is exact precisely when the retained log covers what compaction dropped. */
  lemma RebuildExactIff(actions: seq<Action>, cfg: Config)
    requires EachStep(actions, cfg, Lossless)
    ensures var s := Run(actions, cfg);
            Rebuilt(s.db) == Loaded(s.db) <==> Decoded(Dropped(s)) <= Decoded(s.db.log)
  {
    NothingLostIff(actions, cfg);
    RunKeepsInv(actions, cfg);
    LogWithinHistory(Run(actions, cfg), cfg.keep);
    DecodedSplits(Run(actions, cfg).history, Run(actions, cfg).floor);
  }

  /**
   While the version is within the number of updates to keep, a replay yields every committed
   update, in every run: also those that the content has lost.
  */
  lemma RebuildRecoversAll(actions: seq<Action>, cfg: Config)
    requires Run(actions, cfg).db.row.Some? && Run(actions, cfg).db.row.value <= cfg.keep
    ensures var s := Run(actions, cfg);
            Dropped(s) == [] && Rebuilt(s.db) == Decoded(s.history) >= Loaded(s.db)
  {
    var s := Run(actions, cfg);
    RunKeepsInv(actions, cfg);
    LogWithinHistory(s, cfg.keep);
    RankIs(s.history, s.floor, 0);
  }

  // ---------- Which updates the content joins ----------

  ghost function Chosen(es: seq<LogEntry>, picks: seq<bool>): Doc
    requires |picks| == |es|
  {
    if es == [] then {} else
      Chosen(es[..|es| - 1], picks[..|es| - 1]) + (if picks[|es| - 1] then Raw(es[|es| - 1].update) else {})
  }

  /** `d` is the join of some of the updates, and of the last one if `last` says so. */
  ghost predicate JoinOfSome(d: Doc, es: seq<LogEntry>, last: bool) {
    exists picks: seq<bool> :: Picks(d, es, last, picks)
  }

  ghost predicate Picks(d: Doc, es: seq<LogEntry>, last: bool, picks: seq<bool>) {
    |picks| == |es| && d == Chosen(es, picks) && (last && es != [] ==> picks[|es| - 1])
  }

  lemma JoinOfSomeGrows(d: Doc, es: seq<LogEntry>, e: LogEntry)
    requires JoinOfSome(d, es, false)
    ensures JoinOfSome(d, es + [e], false) && JoinOfSome(d + Raw(e.update), es + [e], true)
  {
    var picks :| Picks(d, es, false, picks);
    assert (es + [e])[..|es|] == es && (picks + [false])[..|es|] == picks && (picks + [true])[..|es|] == picks;
    assert Picks(d, es + [e], false, picks + [false]);
    assert Picks(d + Raw(e.update), es + [e], true, picks + [true]);
  }

  ghost predicate ContentInv(s: State) {
    && JoinOfSome(Loaded(s.db), s.history, true) && JoinOfSome(Loaded(s.db), s.history, false)
    && forall w :: w in s.writers && HasBase(s.writers[w]) ==> JoinOfSome(s.writers[w].base, s.history, false)
  }

  lemma CommitKeepsContentInv(s: State, w: nat, cfg: Config)
    requires LogInv(s, cfg.keep) && ContentInv(s) && PhaseOf(s, w).Holding?
    ensures ContentInv(Apply(s, CommitTx(w), cfg))
  {
    var p, t := PhaseOf(s, w), Apply(s, CommitTx(w), cfg);
    CommitEffect(s, w, cfg);
    var e := LogEntry(s.db.row.value + 1, Gzip(p.update));
    JoinOfSomeGrows(p.base, s.history, e);
    var picks :| Picks(p.base + p.update, t.history, true, picks);
    assert Picks(p.base + p.update, t.history, false, picks);
    forall v | v in t.writers && HasBase(t.writers[v]) ensures JoinOfSome(t.writers[v].base, t.history, false) {
      JoinOfSomeGrows(s.writers[v].base, s.history, e);
    }
  }

  /** Only commits replace the content. */
  predicate ByWriters(s: State, a: Action) {
    NewContent(s, a).Some? ==> a.CommitTx?
  }

  lemma StepKeepsContentInv(s: State, a: Action, cfg: Config)
    requires LogInv(s, cfg.keep) && ContentInv(s) && ByWriters(s, a)
    ensures ContentInv(Apply(s, a, cfg))
  {
    if IsCommit(s, a) {
      CommitKeepsContentInv(s, a.w, cfg);
    } else {
      BasesEffect(s, a, cfg);
      HistoryEffect(s, a, cfg);
      ContentEffect(s, a, cfg);
    }
  }

  /** In every interleaving of writers the content is the join of some committed updates, the last one among them. */
  lemma {:induction false} ContentIsJoinOfSome(actions: seq<Action>, cfg: Config)
    requires EachStep(actions, cfg, ByWriters)
    ensures ContentInv(Run(actions, cfg))
  {
    if actions == [] {
      assert Picks({}, [], true, []) && Picks({}, [], false, []);
    } else {
      var init := actions[..|actions| - 1];
      ContentIsJoinOfSome(init, cfg);
      RunKeepsInv(init, cfg);
      StepKeepsContentInv(Run(init, cfg), actions[|actions| - 1], cfg);
    }
  }

  // ---------- Runs that lose an update ----------

  /** Two calls that both load before either takes the lock, and then take it one after the other. */
  function Overlap(x: Doc, y: Doc): seq<Action> {
    [Load(1, x), Load(2, y), TakeLock(1), CommitTx(1), Compact(1), ReleaseLock(1), TakeLock(2)]
  }

  lemma OverlapStep(x: Doc, y: Doc, k: nat, cfg: Config)
    requires k < |Overlap(x, y)|
    ensures Run(Overlap(x, y)[..k + 1], cfg) == Apply(Run(Overlap(x, y)[..k], cfg), Overlap(x, y)[k], cfg)
  {
    assert Overlap(x, y)[..k + 1] == Overlap(x, y)[..k] + [Overlap(x, y)[k]];
    RunSnoc(Overlap(x, y)[..k], Overlap(x, y)[k], cfg);
  }

  /** Both calls have loaded the empty document; the first has taken the lock. */
  lemma BothLoaded(x: Doc, y: Doc, cfg: Config)
    ensures var s := Run(Overlap(x, y)[..3], cfg);
            && s.db == INITIAL.db && s.history == [] && s.now == 0
            && s.writers == map[1 := Holding(x, {}, 0, 0), 2 := Merged(y, {}, 0)]
            && s.lock == Some(Redis.Entry(0, LOCK_TTL_MS))
  {
    OverlapStep(x, y, 0, cfg);
    OverlapStep(x, y, 1, cfg);
    OverlapStep(x, y, 2, cfg);
  }

  lemma FirstCommits(s: State, x: Doc, cfg: Config)
    requires PhaseOf(s, 1) == Holding(x, {}, 0, 0) && s.db == INITIAL.db && s.history == []
    ensures var t, e := Apply(s, CommitTx(1), cfg), LogEntry(1, Gzip(x));
            && t.history == [e] && t.db.log == [e] && t.db.row == Some(1) && t.db.content == Some(Sealed(x))
            && t.now == s.now && t.lock == s.lock && t.writers == s.writers[1 := Committed(1, 0)] && t.jobs == s.jobs
  {
    var e := LogEntry(1, Gzip(x));
    InsertedAtEnd([], e);
    assert [] + [e] == [e];
    assert {} + x == x && Commit(s.db, {} + x, x, cfg).Some?;
  }

  lemma FirstCommitted(x: Doc, y: Doc, cfg: Config)
    ensures var s := Run(Overlap(x, y)[..4], cfg);
            && s.history == [LogEntry(1, Gzip(x))] && s.db.log == [LogEntry(1, Gzip(x))]
            && s.db.row == Some(1) && s.now == 0
            && PhaseOf(s, 1) == Committed(1, 0) && PhaseOf(s, 2) == Merged(y, {}, 0)
            && s.lock == Some(Redis.Entry(0, LOCK_TTL_MS))
  {
    BothLoaded(x, y, cfg);
    FirstCommits(Run(Overlap(x, y)[..3], cfg), x, cfg);
    OverlapStep(x, y, 3, cfg);
  }

  /** The first call has finished; it compacts only if not even two updates are to be kept. */
  lemma FirstDone(x: Doc, y: Doc, cfg: Config)
    ensures var s := Run(Overlap(x, y)[..5], cfg);
            && s.history == [LogEntry(1, Gzip(x))] && s.db.row == Some(1) && s.now == 0
            && (2 <= cfg.keep ==> s.db.log == [LogEntry(1, Gzip(x))])
            && PhaseOf(s, 1) == Compacted(0) && PhaseOf(s, 2) == Merged(y, {}, 0)
            && s.lock == Some(Redis.Entry(0, LOCK_TTL_MS))
  {
    FirstCommitted(x, y, cfg);
    OverlapStep(x, y, 4, cfg);
  }

  lemma FirstReleased(x: Doc, y: Doc, cfg: Config)
    ensures var s := Run(Overlap(x, y)[..6], cfg);
            && s.history == [LogEntry(1, Gzip(x))] && s.db.row == Some(1)
            && (2 <= cfg.keep ==> s.db.log == [LogEntry(1, Gzip(x))])
            && PhaseOf(s, 2) == Merged(y, {}, 0) && s.lock == None
  {
    FirstDone(x, y, cfg);
    OverlapStep(x, y, 5, cfg);
  }

  /** The second call holds the lock, with a base it loaded before the first call's commit. */
  ghost predicate HoldsOldBase(s: State, x: Doc, y: Doc, keep: nat) {
    && s.history == [LogEntry(1, Gzip(x))] && s.db.row == Some(1)
    && (2 <= keep ==> s.db.log == [LogEntry(1, Gzip(x))])
    && PhaseOf(s, 2).Holding? && PhaseOf(s, 2).update == y && PhaseOf(s, 2).base == {} && PhaseOf(s, 2).at == 0
  }

  lemma SecondHolds(x: Doc, y: Doc, cfg: Config)
    ensures HoldsOldBase(Run(Overlap(x, y), cfg), x, y, cfg.keep)
  {
    FirstReleased(x, y, cfg);
    OverlapStep(x, y, 6, cfg);
    assert Overlap(x, y)[..7] == Overlap(x, y);
  }

  lemma SecondCommits(s: State, one: LogEntry, y: Doc, cfg: Config)
    requires LogInv(s, cfg.keep) && s.history == [one] && s.db.row == Some(1)
    requires PhaseOf(s, 2).Holding? && PhaseOf(s, 2).update == y && PhaseOf(s, 2).base == {}
    ensures var t, two := Apply(s, CommitTx(2), cfg), LogEntry(2, Gzip(y));
            t.history == [one] + [two] && t.db.log == s.db.log + [two] && Loaded(t.db) == y
  {
    CommitEffect(s, 2, cfg);
    assert {} + y == y;
  }

  lemma TwoDecoded(x: Doc, y: Doc)
    ensures Decoded([LogEntry(1, Gzip(x))] + [LogEntry(2, Gzip(y))]) == x + y
  {
    DecodedSnoc([], LogEntry(1, Gzip(x)));
    assert [] + [LogEntry(1, Gzip(x))] == [LogEntry(1, Gzip(x))];
    DecodedSnoc([LogEntry(1, Gzip(x))], LogEntry(2, Gzip(y)));
  }

  lemma OldBaseLoses(before: seq<Action>, x: Doc, y: Doc, cfg: Config)
    requires HoldsOldBase(Run(before, cfg), x, y, cfg.keep)
    ensures var t := Run(before + [CommitTx(2)], cfg);
            && Loaded(t.db) == y && Decoded(t.history) == x + y && (2 <= cfg.keep ==> Rebuilt(t.db) == x + y)
  {
    RunKeepsLogInv(before, cfg);
    RunSnoc(before, CommitTx(2), cfg);
    SecondCommits(Run(before, cfg), LogEntry(1, Gzip(x)), y, cfg);
    StepKeepsLogInv(Run(before, cfg), CommitTx(2), cfg);
    RebuiltIsLog(Run(before + [CommitTx(2)], cfg), cfg.keep);
    TwoDecoded(x, y);
  }

  /**
   The lock alone does not serialize: after `Overlap` the second call holds it, with a base from before the first
   call's commit. Once it commits the content is the second update, so the first is lost unless the second contains
   it; a rebuild brings it back, if two updates are kept.
  */
  lemma OverlapLosesUpdate(x: Doc, y: Doc, cfg: Config)
    ensures var s := Run(Overlap(x, y), cfg);
            PhaseOf(s, 2).Holding? && PhaseOf(s, 2).at < |s.history| && !UpToDate(s, CommitTx(2))
    ensures var t := Run(Overlap(x, y) + [CommitTx(2)], cfg);
            && Loaded(t.db) == y && Decoded(t.history) == x + y
            && (Loaded(t.db) == Decoded(t.history) <==> x <= y)
            && (2 <= cfg.keep ==> Rebuilt(t.db) == x + y)
  {
    SecondHolds(x, y, cfg);
    OldBaseLoses(Overlap(x, y), x, y, cfg);
  }

  /** The replay has read the empty log to its end. */
  lemma ReplayHasRead(cfg: Config) returns (actions: seq<Action>)
    ensures actions == [StartReplay(0), ReadPage(0)]
    ensures EachStep(actions, cfg, Serial)
    ensures Run(actions, cfg) == INITIAL.(jobs := map[0 := Replaying(Replay.Done(0, {}), 0)])
  {
    actions := [] + [StartReplay(0)] + [ReadPage(0)];
    RunSnoc([], StartReplay(0), cfg);
    EachStepSnoc([], StartReplay(0), cfg, Serial);
    RunSnoc([] + [StartReplay(0)], ReadPage(0), cfg);
    EachStepSnoc([] + [StartReplay(0)], ReadPage(0), cfg, Serial);
    PagesAreTurns(INITIAL, 0, 1, cfg);
    FirstTurn();
    assert Run(actions, cfg) == PagesRead(INITIAL, 0, 1, cfg);
  }

  lemma FirstTurn()
    ensures Replay.Turns([], PAGE, 1) == Replay.Done(0, {})
  {
    assert Replay.Turns([], PAGE, 0) == Replay.Running(0, {});
  }

  lemma EachStepSnoc(actions: seq<Action>, a: Action, cfg: Config, q: (State, Action) -> bool)
    requires EachStep(actions, cfg, q) && q(Run(actions, cfg), a)
    ensures EachStep(actions + [a], cfg, q)
  {
    assert (actions + [a])[..|actions|] == actions;
  }

  lemma LockedDuringReplay(x: Doc, cfg: Config) returns (actions: seq<Action>)
    ensures actions == [StartReplay(0), ReadPage(0), Load(1, x), TakeLock(1)]
    ensures EachStep(actions, cfg, Serial)
    ensures var s := Run(actions, cfg);
            && PhaseOf(s, 1) == Holding(x, {}, 0, 0) && s.db == INITIAL.db && s.history == []
            && s.jobs == map[0 := Replaying(Replay.Done(0, {}), 0)]
  {
    actions := ReplayHasRead(cfg);
    RunSnoc(actions, Load(1, x), cfg);
    EachStepSnoc(actions, Load(1, x), cfg, Serial);
    actions := actions + [Load(1, x)];
    RunSnoc(actions, TakeLock(1), cfg);
    EachStepSnoc(actions, TakeLock(1), cfg, Serial);
    actions := actions + [TakeLock(1)];
  }

  /** Before the replay writes, a call loads, locks and commits without any other commit in its window. */
  lemma CommitDuringReplay(x: Doc, cfg: Config) returns (actions: seq<Action>)
    ensures actions == [StartReplay(0), ReadPage(0), Load(1, x), TakeLock(1), CommitTx(1)]
    ensures EachStep(actions, cfg, Serial)
    ensures var s := Run(actions, cfg);
            && s.history == s.db.log == [LogEntry(1, Gzip(x))] && s.db.row == Some(1) && s.db.content == Some(Sealed(x))
            && s.jobs == map[0 := Replaying(Replay.Done(0, {}), 0)]
  {
    actions := LockedDuringReplay(x, cfg);
    var held := Run(actions, cfg);
    FirstCommits(held, x, cfg);
    RunSnoc(actions, CommitTx(1), cfg);
    EachStepSnoc(actions, CommitTx(1), cfg, Serial);
    actions := actions + [CommitTx(1)];
  }

  lemma OverwriteStores(s: State, cfg: Config)
    requires s.jobs == map[0 := Replaying(Replay.Done(0, {}), 0)]
    ensures var t := Apply(s, Overwrite(0), cfg); t.db == s.db.(content := Some(Sealed({}))) && t.history == s.history
  {
  }

  /**
   The snapshot job takes no lock: a call that commits between the last page of the replay and its
   overwrite is dropped from the content, although no two writers overlap; the log still has it.
  */
  lemma ReplayDropsUpdate(x: Doc, cfg: Config) returns (actions: seq<Action>)
    ensures actions == [StartReplay(0), ReadPage(0), Load(1, x), TakeLock(1), CommitTx(1)]
    ensures EachStep(actions, cfg, Serial)
    ensures var t := Apply(Run(actions, cfg), Overwrite(0), cfg);
            && Loaded(t.db) == {} && Decoded(t.history) == x && Rebuilt(t.db) == x
            && (Exact(t) <==> x == {}) && (Covering(t) <==> x == {})
  {
    actions := CommitDuringReplay(x, cfg);
    var s := Run(actions, cfg);
    var t := Apply(s, Overwrite(0), cfg);
    RunKeepsInv(actions, cfg);
    LogWithinHistory(s, cfg.keep);
    OverwriteStores(s, cfg);
    DecodedSnoc([], LogEntry(1, Gzip(x)));
    assert [] + [LogEntry(1, Gzip(x))] == [LogEntry(1, Gzip(x))];
  }
}
