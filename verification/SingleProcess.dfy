/**
 With one process, no jobs and no fill of a cache that comes late, the caches never lag, and so every initial state
 is recent enough: the caches and the realtime protocol fit together.
*/
module SingleProcess {
  import opened Common
  import opened Yjs
  import opened DocumentStore
  import opened Cluster
  import opened LateFills
  import Convergence
  import Coverage

  /** The action goes through the service, and if it is on a process, on `proc`. */
  predicate OnlyOn(a: Action, proc: nat) {
    match a
    case Read(i, _) => i == proc
    case Write(i, _, _) => i == proc
    case Rollback(i, _) => i == proc
    case Repair(i, _) => i == proc
    case SnapshotJob => false
    case Damage(_) => false
    case _ => true
  }

  /** The shared copy and the memory copy of `proc` are the stored view, as far as they exist. */
  ghost predicate CopiesCurrent(s: State, proc: nat) {
    IsCurrent(s, s.redis) && IsCurrent(s, CachesOf(s, proc).mem)
  }

  lemma StepKeepsCopies(s: State, a: Action, proc: nat, cfg: Config)
    requires CopiesCurrent(s, proc) && OnlyOn(a, proc)
    ensures CopiesCurrent(Apply(s, a, cfg), proc)
  {
  }

  /** The same for a step of a read that fills the caches late. */
  predicate MovesOn(m: Move, proc: nat) {
    match m
    case Whole(a) => OnlyOn(a, proc)
    case FindInDatabase(_, i) => i == proc
    case FindInRedis(_, i) => i == proc
    case _ => true
  }

  ghost predicate AllOn(moves: seq<Move>, proc: nat) {
    forall i :: 0 <= i < |moves| ==> MovesOn(moves[i], proc)
  }

  /** A fill stores what the database holds. */
  predicate Punctual(s: Late, m: Move) {
    match m
    case Keep(r, kept) =>
      kept && r in s.fills && !s.fills[r].ShareOnly? ==> Ok(s.fills[r].view) == StoredView(s.cluster.db)
    case Share(r) => r in s.fills && s.fills[r].ShareOnly? ==> Ok(s.fills[r].view) == StoredView(s.cluster.db)
    case _ => true
  }

  ghost predicate FillsOn(s: Late, proc: nat) {
    forall r :: r in s.fills && !s.fills[r].ShareOnly? ==> s.fills[r].proc == proc
  }

  lemma MoveKeepsCopiesIff(s: Late, m: Move, proc: nat, cfg: Config)
    requires CopiesCurrent(s.cluster, proc) && FillsOn(s, proc) && MovesOn(m, proc)
    ensures CopiesCurrent(After(s, m, cfg).cluster, proc) <==> Punctual(s, m)
  {
    if m.Whole? {
      StepKeepsCopies(s.cluster, m.a, proc, cfg);
    }
  }

  lemma MoveKeepsFills(s: Late, m: Move, proc: nat, cfg: Config)
    requires FillsOn(s, proc) && MovesOn(m, proc)
    ensures FillsOn(After(s, m, cfg), proc)
  {
  }

  ghost predicate AlwaysCurrentOn(s: State, moves: seq<Move>, proc: nat, cfg: Config) {
    CopiesCurrent(LateRun(s, moves, cfg).cluster, proc)
    && (moves == [] || AlwaysCurrentOn(s, moves[..|moves| - 1], proc, cfg))
  }

  ghost predicate AlwaysPunctual(s: State, moves: seq<Move>, cfg: Config) {
    moves == [] || (AlwaysPunctual(s, moves[..|moves| - 1], cfg)
                    && Punctual(LateRun(s, moves[..|moves| - 1], cfg), moves[|moves| - 1]))
  }

  /**
   In a run of one process without jobs or damage both copies are current at every point if and only if every
   fill stores what the database holds at that moment; a read that is one step has no fill to be late.
  */
  lemma {:induction false} CopiesCurrentIff(s: State, moves: seq<Move>, proc: nat, cfg: Config)
    requires Start(s) && AllOn(moves, proc)
    ensures FillsOn(LateRun(s, moves, cfg), proc)
    ensures AlwaysCurrentOn(s, moves, proc, cfg) <==> AlwaysPunctual(s, moves, cfg)
  {
    if moves != [] {
      var init, m := moves[..|moves| - 1], moves[|moves| - 1];
      CopiesCurrentIff(s, init, proc, cfg);
      MoveKeepsFills(LateRun(s, init, cfg), m, proc, cfg);
      if AlwaysCurrentOn(s, init, proc, cfg) {
        MoveKeepsCopiesIff(LateRun(s, init, cfg), m, proc, cfg);
      }
    }
  }

  /** Then every answer of the one process is the stored view. */
  lemma AnswersAreCurrent(s: State, moves: seq<Move>, proc: nat, cfg: Config)
    requires Start(s) && AllOn(moves, proc) && AlwaysPunctual(s, moves, cfg)
    ensures var t := LateRun(s, moves, cfg).cluster; Answer(t, proc) == StoredView(t.db)
  {
    CopiesCurrentIff(s, moves, proc, cfg);
  }

  function Wholes(calls: seq<Action>): seq<Move> {
    seq(|calls|, i requires 0 <= i < |calls| => Whole(calls[i]))
  }

  /** Runs whose reads are one step are such runs, with no late fill. */
  lemma {:induction false} WholesArePunctual(s: State, calls: seq<Action>, cfg: Config)
    ensures LateRun(s, Wholes(calls), cfg) == Late(Run(s, calls, cfg), map[])
    ensures AlwaysPunctual(s, Wholes(calls), cfg)
  {
    if calls != [] {
      var init := calls[..|calls| - 1];
      WholesArePunctual(s, init, cfg);
      assert Wholes(calls)[..|calls| - 1] == Wholes(init);
    }
  }

  lemma {:induction false} LateRunIsIntact(s: State, moves: seq<Move>, proc: nat, cfg: Config)
    requires AllIntact(s.db) && AllOn(moves, proc)
    ensures AllIntact(LateRun(s, moves, cfg).cluster.db)
  {
    if moves != [] {
      var init, m := moves[..|moves| - 1], moves[|moves| - 1];
      LateRunIsIntact(s, init, proc, cfg);
      if m.Whole? {
        StepKeepsIntact(LateRun(s, init, cfg).cluster, m.a, cfg);
      }
    }
  }

  /** While commits contain what they overwrite, nothing stored at a join is gone later. */
  lemma {:induction false} ContentGrows(actions: seq<Convergence.Action>, g: Convergence.Setup, c: nat)
    requires Coverage.AlwaysRecent(actions, g)
    ensures Coverage.JoinContent(actions, g, c) <= Convergence.Run(actions, g).content
  {
    if actions != [] {
      var init, a := actions[..|actions| - 1], actions[|actions| - 1];
      ContentGrows(init, g, c);
      ContentEffect(Convergence.Run(init, g), a, g);
    }
  }

  lemma ContentEffect(s: Convergence.State, a: Convergence.Action, g: Convergence.Setup)
    ensures var t := Convergence.Apply(s, a, g);
            t.content == s.content || (a.Commit? && t.content == a.base + a.m.u)
  {
  }

  /**
   So an initial state that the one process answers, from whatever copy, is recent: of the three conditions under
   which a run converges, only those on commits and subscriptions remain.
  */
  lemma InitialStatesAreRecent(s: State, moves: seq<Move>, proc: nat, cfg: Config,
                               actions: seq<Convergence.Action>, g: Convergence.Setup, c: nat)
    requires Start(s) && AllIntact(s.db) && AllOn(moves, proc) && AlwaysPunctual(s, moves, cfg)
    requires Coverage.AlwaysRecent(actions, g)
    requires Convergence.Run(actions, g).content == Loaded(LateRun(s, moves, cfg).cluster.db)
    ensures var answer := Answer(LateRun(s, moves, cfg).cluster, proc);
            answer.Ok? && Coverage.Recent(actions, Convergence.Init(c, answer.value.update), g)
  {
    AnswersAreCurrent(s, moves, proc, cfg);
    LateRunIsIntact(s, moves, proc, cfg);
    ContentGrows(actions, g, c);
  }
}
