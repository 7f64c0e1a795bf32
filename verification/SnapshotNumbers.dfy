/** Which committed updates get a periodic snapshot, and which numbers snapshots have, over interleaved runs. */
module SnapshotNumbers {
  import opened Common
  import opened Yjs
  import opened UpdateLog
  import opened DocumentStore
  import opened Writers

  ghost predicate HasSnapshot(db: Db, n: int) {
    exists i :: 0 <= i < |db.snaps| && db.snaps[i].seqNo == n
  }

  ghost predicate Distinct(snaps: seq<Snapshot>) {
    forall i, j :: 0 <= i < j < |snaps| ==> snaps[i].seqNo != snaps[j].seqNo
  }

  /** Every number in use is at most the version. */
  ghost predicate NumbersUsed(s: State, last: int) {
    && (forall i :: 0 <= i < |s.db.snaps| ==> s.db.snaps[i].seqNo <= last)
    && (forall j :: j in s.jobs && s.jobs[j].Storing? ==> s.jobs[j].seqNo <= last)
  }

  /** A number drawn for a manual snapshot is nobody else's: no committed update's, no snapshot's, no other job's. */
  ghost predicate DrawnApart(s: State) {
    forall j :: j in s.jobs && s.jobs[j].Storing? ==>
      && !HasSeq(s.history, s.jobs[j].seqNo) && !HasSnapshot(s.db, s.jobs[j].seqNo)
      && forall k :: k in s.jobs && k != j && s.jobs[k].Storing? ==> s.jobs[k].seqNo != s.jobs[j].seqNo
  }

  /** A committed update has a snapshot exactly when its number is due. */
  ghost predicate DueSnapshots(s: State, cfg: Config) {
    forall n: nat :: HasSeq(s.history, n) ==> (HasSnapshot(s.db, n) <==> SnapshotDue(n, cfg))
  }

  ghost predicate Inv(s: State, cfg: Config) {
    && LogInv(s, cfg.keep) && NumbersUsed(s, s.db.row.value) && DrawnApart(s) && DueSnapshots(s, cfg)
    && Distinct(s.db.snaps)
  }

  /** A commit takes a snapshot of exactly what it stores, under its number, exactly when that is due. */
  lemma CommitSnapshot(s: State, w: nat, cfg: Config)
    requires LogInv(s, cfg.keep) && PhaseOf(s, w).Holding?
    ensures var t, n := Apply(s, CommitTx(w), cfg), s.db.row.value + 1;
            && t.db.content.Some? && t.db.row == Some(n)
            && t.db.snaps == s.db.snaps + if SnapshotDue(n, cfg) then [Snapshot(n, t.db.content.value)] else []
  {
    CommitEffect(s, w, cfg);
  }

  lemma HasSnapshotSnoc(db: Db, t: Db, x: Snapshot, n: int)
    requires t.snaps == db.snaps + [x]
    ensures HasSnapshot(t, n) <==> HasSnapshot(db, n) || x.seqNo == n
  {
    assert t.snaps[|db.snaps|] == x;
    if i :| 0 <= i < |db.snaps| && db.snaps[i].seqNo == n {
      assert t.snaps[i] == db.snaps[i];
    }
  }

  lemma HasSeqSnoc(es: seq<LogEntry>, e: LogEntry, n: int)
    ensures HasSeq(es + [e], n) <==> HasSeq(es, n) || e.seqNo == n
  {
    assert (es + [e])[|es|] == e;
    if i :| 0 <= i < |es| && es[i].seqNo == n {
      assert (es + [e])[i] == es[i];
    }
  }

  /** Steps other than commits and the last two of a manual snapshot. */
  lemma QuietSnapshots(s: State, a: Action, cfg: Config)
    requires !IsCommit(s, a) && !a.DrawNumber? && !a.StoreSnapshot?
    ensures var t := Apply(s, a, cfg);
            && t.history == s.history && t.db.snaps == s.db.snaps && t.db.row == s.db.row
            && forall j :: j in t.jobs && t.jobs[j].Storing? ==> j in s.jobs && t.jobs[j] == s.jobs[j]
  {
  }

  lemma QuietKeepsInv(s: State, a: Action, cfg: Config)
    requires Inv(s, cfg) && !IsCommit(s, a) && !a.DrawNumber? && !a.StoreSnapshot?
    ensures Inv(Apply(s, a, cfg), cfg)
  {
    var t := Apply(s, a, cfg);
    StepKeepsLogInv(s, a, cfg);
    QuietSnapshots(s, a, cfg);
    assert forall n :: HasSnapshot(t.db, n) == HasSnapshot(s.db, n);
  }

  lemma DrawKeepsInv(s: State, j: nat, cfg: Config)
    requires Inv(s, cfg)
    ensures Inv(Apply(s, DrawNumber(j), cfg), cfg)
  {
    var t := Apply(s, DrawNumber(j), cfg);
    StepKeepsLogInv(s, DrawNumber(j), cfg);
    assert forall n :: HasSnapshot(t.db, n) == HasSnapshot(s.db, n);
  }

  lemma StoreEffect(s: State, j: nat, cfg: Config)
    ensures var t := Apply(s, StoreSnapshot(j), cfg);
            if j in s.jobs && s.jobs[j].Storing? then
              && t == s.(jobs := s.jobs - {j}, db := t.db) && t.db == s.db.(snaps := t.db.snaps)
              && t.db.snaps == s.db.snaps + [Snapshot(s.jobs[j].seqNo, s.jobs[j].content)]
            else t == s
  {
  }

  lemma StoreKeepsInv(s: State, j: nat, cfg: Config)
    requires Inv(s, cfg)
    ensures Inv(Apply(s, StoreSnapshot(j), cfg), cfg)
  {
    var t := Apply(s, StoreSnapshot(j), cfg);
    StepKeepsLogInv(s, StoreSnapshot(j), cfg);
    StoreEffect(s, j, cfg);
    if j in s.jobs && s.jobs[j].Storing? {
      var x := Snapshot(s.jobs[j].seqNo, s.jobs[j].content);
      forall n ensures HasSnapshot(t.db, n) <==> HasSnapshot(s.db, n) || x.seqNo == n {
        HasSnapshotSnoc(s.db, t.db, x, n);
      }
      StoredApart(s, t, x);
    }
  }

  lemma StoredApart(s: State, t: State, x: Snapshot)
    requires Distinct(s.db.snaps) && !HasSnapshot(s.db, x.seqNo) && t.db.snaps == s.db.snaps + [x]
    ensures Distinct(t.db.snaps)
  {
    forall i, j | 0 <= i < j < |t.db.snaps| ensures t.db.snaps[i].seqNo != t.db.snaps[j].seqNo {
      assert i < |s.db.snaps| && t.db.snaps[i] == s.db.snaps[i];
    }
  }

  lemma CommitKeepsInv(s: State, w: nat, cfg: Config)
    requires Inv(s, cfg) && PhaseOf(s, w).Holding?
    ensures Inv(Apply(s, CommitTx(w), cfg), cfg)
  {
    var t, n := Apply(s, CommitTx(w), cfg), s.db.row.value + 1;
    var e := LogEntry(n, Gzip(PhaseOf(s, w).update));
    StepKeepsLogInv(s, CommitTx(w), cfg);
    CommitEffect(s, w, cfg);
    CommitSnapshot(s, w, cfg);
    forall m: int
      ensures HasSeq(t.history, m) <==> HasSeq(s.history, m) || m == n
      ensures HasSnapshot(t.db, m) <==> HasSnapshot(s.db, m) || (m == n && SnapshotDue(n, cfg))
    {
      HasSeqSnoc(s.history, e, m);
      if SnapshotDue(n, cfg) {
        HasSnapshotSnoc(s.db, t.db, Snapshot(n, t.db.content.value), m);
      } else {
        assert t.db.snaps == s.db.snaps;
      }
    }
    CommitApart(s, t, n, cfg);
  }

  lemma CommitApart(s: State, t: State, n: nat, cfg: Config)
    requires Inv(s, cfg) && n == s.db.row.value + 1 && t.db.row == Some(n) && t.jobs == s.jobs && t.db.content.Some?
    requires t.db.snaps == s.db.snaps + if SnapshotDue(n, cfg) then [Snapshot(n, t.db.content.value)] else []
    requires forall m: int :: HasSeq(t.history, m) <==> HasSeq(s.history, m) || m == n
    requires forall m: int :: HasSnapshot(t.db, m) <==> HasSnapshot(s.db, m) || (m == n && SnapshotDue(n, cfg))
    ensures NumbersUsed(t, n) && DrawnApart(t) && DueSnapshots(t, cfg) && Distinct(t.db.snaps)
  {
    assert !HasSnapshot(s.db, n);
    if SnapshotDue(n, cfg) {
      StoredApart(s, t, Snapshot(n, t.db.content.value));
    }
  }

  lemma StepKeepsInv(s: State, a: Action, cfg: Config)
    requires Inv(s, cfg)
    ensures Inv(Apply(s, a, cfg), cfg)
  {
    if IsCommit(s, a) {
      CommitKeepsInv(s, a.w, cfg);
    } else if a.DrawNumber? {
      DrawKeepsInv(s, a.j, cfg);
    } else if a.StoreSnapshot? {
      StoreKeepsInv(s, a.j, cfg);
    } else {
      QuietKeepsInv(s, a, cfg);
    }
  }

  lemma {:induction false} RunKeepsInv(actions: seq<Action>, cfg: Config)
    ensures Inv(Run(actions, cfg), cfg)
  {
    if actions == [] {
      InitialLogInv(cfg);
    } else {
      RunKeepsInv(actions[..|actions| - 1], cfg);
      StepKeepsInv(Run(actions[..|actions| - 1], cfg), actions[|actions| - 1], cfg);
    }
  }

  /**
   In every run no two snapshots share a number, and a committed update has a snapshot under its number if and only
   if that number is a multiple of `DOC_SNAPSHOT_EVERY`; manual snapshots have numbers of their own.
  */
  lemma PeriodicSnapshots(actions: seq<Action>, n: nat, cfg: Config)
    requires HasSeq(Run(actions, cfg).history, n)
    ensures Distinct(Run(actions, cfg).db.snaps)
    ensures HasSnapshot(Run(actions, cfg).db, n) <==> cfg.snapshotEvery != 0 && n % cfg.snapshotEvery == 0
  {
    RunKeepsInv(actions, cfg);
  }

  /** And what such a snapshot holds is the content that its commit stored. */
  lemma PeriodicSnapshotIsContent(actions: seq<Action>, w: nat, cfg: Config)
    requires PhaseOf(Run(actions, cfg), w).Holding? && cfg.snapshotEvery != 0
    ensures var s := Run(actions, cfg);
            var t := Apply(s, CommitTx(w), cfg);
            && t.db.row.Some? && t.db.content.Some?
            && t.db.snaps == s.db.snaps +
                 if t.db.row.value % cfg.snapshotEvery == 0 then [Snapshot(t.db.row.value, t.db.content.value)] else []
  {
    RunKeepsLogInv(actions, cfg);
    CommitSnapshot(Run(actions, cfg), w, cfg);
  }
}
