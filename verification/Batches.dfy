/** The per-document update batches of the gateway: enqueue, timed flush, and idle pruning. */
module Batches {
  import opened Common
  import opened Yjs

  /** `timer` is the time at which the pending flush is due. */
  datatype Batch = Batch(updates: seq<Doc>, timer: Option<int>, last: int)

  type Table = map<string, Batch>

  function Enqueued(b: Table, doc: string, u: Doc, now: int, batchMs: nat): Table {
    var e := if doc in b then b[doc] else Batch([], None, now);
    b[doc := Batch(e.updates + [u], if e.timer.Some? then e.timer else Some(now + batchMs), now)]
  }

  /** A flush takes everything that is pending and clears the timer; on an unknown document it does nothing. */
  function Flushed(b: Table, doc: string): Table {
    if doc in b then b[doc := b[doc].(updates := [], timer := None)] else b
  }

  function Pending(b: Table, doc: string): seq<Doc> {
    if doc in b then b[doc].updates else []
  }

  function Pruned(b: Table, now: int, idleMs: nat): Table {
    map d | d in b && now - b[d].last <= idleMs :: b[d]
  }

  // ---------- Runs ----------

  datatype Action = Tick(ms: nat) | Accept(doc: string, update: Doc) | Fire(doc: string) | Prune

  /** `accepted` and `flushed` record, per document, every accepted update and every flushed batch. */
  datatype State = State(now: int, table: Table, accepted: map<string, seq<Doc>>, flushed: map<string, seq<seq<Doc>>>)

  datatype Config = Config(batchMs: nat, idleMs: nat)

  function Of<T>(m: map<string, seq<T>>, doc: string): seq<T> {
    if doc in m then m[doc] else []
  }

  function Flat(bs: seq<seq<Doc>>): seq<Doc> {
    if bs == [] then [] else Flat(bs[..|bs| - 1]) + bs[|bs| - 1]
  }

  function Apply(s: State, a: Action, cfg: Config): State {
    match a
    case Tick(ms) => s.(now := s.now + ms)
    case Accept(d, u) => s.(table := Enqueued(s.table, d, u, s.now, cfg.batchMs),
                            accepted := s.accepted[d := Of(s.accepted, d) + [u]])
    case Fire(d) =>
      if Pending(s.table, d) == [] then s.(table := Flushed(s.table, d))
      else s.(table := Flushed(s.table, d), flushed := s.flushed[d := Of(s.flushed, d) + [Pending(s.table, d)]])
    case Prune => s.(table := Pruned(s.table, s.now, cfg.idleMs))
  }

  const INITIAL := State(0, map[], map[], map[])

  function Run(actions: seq<Action>, cfg: Config): State {
    if actions == [] then INITIAL else Apply(Run(actions[..|actions| - 1], cfg), actions[|actions| - 1], cfg)
  }

  /** Pruning finds no timer overdue: timers that were due earlier have fired. */
  ghost predicate TimersFired(s: State, a: Action) {
    a.Prune? ==> forall d :: d in s.table && s.table[d].timer.Some? ==> s.now <= s.table[d].timer.value
  }

  ghost predicate Punctual(actions: seq<Action>, cfg: Config) {
    forall k :: 0 <= k < |actions| ==> TimersFired(Run(actions[..k], cfg), actions[k])
  }

  /** Flushed batches in flush order, then the pending updates, are the accepted updates in order. */
  ghost predicate Intact(s: State, d: string) {
    Flat(Of(s.flushed, d)) + Pending(s.table, d) == Of(s.accepted, d)
  }

  /** The timer is set exactly when updates are pending, and is due soon after the latest of them. */
  ghost predicate Timed(s: State, cfg: Config) {
    forall d :: d in s.table ==>
      var e := s.table[d];
      && e.last <= s.now
      && (e.timer.Some? <==> e.updates != [])
      && (e.timer.Some? ==> e.timer.value <= e.last + cfg.batchMs)
  }

  lemma FlatSnoc(bs: seq<seq<Doc>>, b: seq<Doc>)
    ensures Flat(bs + [b]) == Flat(bs) + b
  {
    assert (bs + [b])[..|bs|] == bs;
  }

  lemma StepKeepsTimed(s: State, a: Action, cfg: Config)
    requires Timed(s, cfg)
    ensures Timed(Apply(s, a, cfg), cfg)
  {
  }

  /** Only actions on `d` itself, and pruning, can concern `d`. */
  lemma OthersUntouched(s: State, a: Action, cfg: Config, d: string)
    requires a.Tick? || (a.Accept? && a.doc != d) || (a.Fire? && a.doc != d)
    ensures var t := Apply(s, a, cfg);
            && Pending(t.table, d) == Pending(s.table, d)
            && Of(t.flushed, d) == Of(s.flushed, d) && Of(t.accepted, d) == Of(s.accepted, d)
  {
  }

  lemma AcceptKeepsIntact(s: State, d: string, u: Doc, cfg: Config)
    requires Intact(s, d)
    ensures Intact(Apply(s, Accept(d, u), cfg), d)
  {
    var f, p := Flat(Of(s.flushed, d)), Pending(s.table, d);
    assert f + (p + [u]) == (f + p) + [u];
  }

  lemma FireKeepsIntact(s: State, d: string, cfg: Config)
    requires Intact(s, d)
    ensures Intact(Apply(s, Fire(d), cfg), d)
  {
    var f, p := Flat(Of(s.flushed, d)), Pending(s.table, d);
    FlatSnoc(Of(s.flushed, d), p);
    assert (f + p) + [] == f + p;
  }

  lemma StepKeepsIntact(s: State, a: Action, cfg: Config, d: string)
    requires Timed(s, cfg) && Intact(s, d) && TimersFired(s, a) && cfg.batchMs <= cfg.idleMs
    ensures Intact(Apply(s, a, cfg), d)
  {
    if a.Accept? && a.doc == d {
      AcceptKeepsIntact(s, d, a.update, cfg);
    } else if a.Fire? && a.doc == d {
      FireKeepsIntact(s, d, cfg);
    } else if a.Prune? {
      assert d in s.table && s.table[d].updates != [] ==> s.now - s.table[d].last <= cfg.idleMs;
    } else {
      OthersUntouched(s, a, cfg, d);
    }
  }

  lemma {:induction false} RunIsTimed(actions: seq<Action>, cfg: Config)
    ensures Timed(Run(actions, cfg), cfg)
  {
    if actions != [] {
      RunIsTimed(actions[..|actions| - 1], cfg);
      StepKeepsTimed(Run(actions[..|actions| - 1], cfg), actions[|actions| - 1], cfg);
    }
  }

  lemma {:induction false} RunIsIntact(actions: seq<Action>, cfg: Config, d: string)
    requires Punctual(actions, cfg) && cfg.batchMs <= cfg.idleMs
    ensures Intact(Run(actions, cfg), d)
  {
    if actions != [] {
      var k := |actions| - 1;
      forall i | 0 <= i < k ensures TimersFired(Run(actions[..k][..i], cfg), actions[..k][i]) {
        assert actions[..k][..i] == actions[..i];
      }
      RunIsIntact(actions[..k], cfg, d);
      RunIsTimed(actions[..k], cfg);
      StepKeepsIntact(Run(actions[..k], cfg), actions[k], cfg, d);
    }
  }

  /** Every run in which due timers fire first keeps every batch whole. */
  ghost predicate BatchesWhole(cfg: Config) {
    forall actions, d :: Punctual(actions, cfg) ==> Intact(Run(actions, cfg), d)
  }

  /** No accepted update is ever lost, duplicated or reordered, exactly when batching is no slower than pruning. */
  lemma BatchesWholeIff(cfg: Config)
    ensures BatchesWhole(cfg) <==> cfg.batchMs <= cfg.idleMs
  {
    if cfg.batchMs <= cfg.idleMs {
      forall actions, d | Punctual(actions, cfg) ensures Intact(Run(actions, cfg), d) {
        RunIsIntact(actions, cfg, d);
      }
    } else {
      var actions := SlowBatchIsPruned(cfg);
      assert Punctual(actions, cfg) && !Intact(Run(actions, cfg), "");
    }
  }

  lemma RunSnoc(actions: seq<Action>, a: Action, cfg: Config)
    ensures Run(actions + [a], cfg) == Apply(Run(actions, cfg), a, cfg)
  {
    assert (actions + [a])[..|actions|] == actions;
  }

  /** With a batch delay above the idle limit, pruning discards an update whose timer is not yet due. */
  lemma SlowBatchIsPruned(cfg: Config) returns (actions: seq<Action>)
    requires cfg.idleMs < cfg.batchMs
    ensures Punctual(actions, cfg) && !Intact(Run(actions, cfg), "")
  {
    var accept := [Accept("", {})];
    var wait := accept + [Tick(cfg.idleMs + 1)];
    actions := wait + [Prune];
    RunSnoc([], Accept("", {}), cfg);
    assert [] + accept == accept;
    RunSnoc(accept, Tick(cfg.idleMs + 1), cfg);
    RunSnoc(wait, Prune, cfg);
    var s := Run(wait, cfg);
    assert s.now == cfg.idleMs + 1 && s.table[""] == Batch([{}], Some(cfg.batchMs), 0);
    forall k | 0 <= k < |actions| ensures TimersFired(Run(actions[..k], cfg), actions[k]) {
      assert k == 2 ==> actions[..k] == wait;
    }
    assert Of(Run(actions, cfg).accepted, "") == [{}];
  }

  /** When the latest update of `d` was accepted. */
  ghost function LastAccept(actions: seq<Action>, cfg: Config, d: string): Option<int> {
    if actions == [] then None else
      var init, a := actions[..|actions| - 1], actions[|actions| - 1];
      if a.Accept? && a.doc == d then Some(Run(init, cfg).now) else LastAccept(init, cfg, d)
  }

  /** An entry is idle since its latest accepted update, and pruning takes it exactly when that is too long ago. */
  lemma {:induction false} IdleSinceLastAccept(actions: seq<Action>, cfg: Config, d: string)
    ensures var s := Run(actions, cfg);
            d in s.table ==>
              && LastAccept(actions, cfg, d) == Some(s.table[d].last)
              && (d in Apply(s, Prune, cfg).table <==> s.now - LastAccept(actions, cfg, d).value <= cfg.idleMs)
  {
    if actions != [] {
      IdleSinceLastAccept(actions[..|actions| - 1], cfg, d);
    }
  }
}
