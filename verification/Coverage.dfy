/**
 What brings each edit to each client and to the store. A client gets the operations that are in
 flight when it joins or are emitted afterwards, unless its process has not subscribed when another
 publishes them; the rest has to come from what was queued for its user while offline or with its initial
 state, which the gateway reads from the caches after the join and before it subscribes.
*/
module Coverage {
  import opened Yjs
  import opened Convergence

  ghost predicate Carried(ms: multiset<Msg>, x: Item) {
    exists m :: m in ms && x in m.u
  }

  ghost predicate Batched(batch: seq<Msg>, x: Item) {
    exists k :: 0 <= k < |batch| && x in batch[k].u
  }

  ghost predicate Uncommitted(s: State, x: Item) {
    Carried(s.up, x) || Batched(s.batch, x) || Carried(s.merging, x)
  }

  ghost predicate DownTo(ms: multiset<Msg>, c: nat, x: Item) {
    exists m :: m in ms && m.at == c && x in m.u
  }

  ghost predicate RelayedTo(rs: multiset<Relay>, p: nat, x: Item) {
    exists r :: r in rs && r.to == p && r.origin != p && x in r.u
  }

  ghost predicate PublishedTo(ms: multiset<Msg>, p: nat, x: Item) {
    exists m :: m in ms && m.at != p && x in m.u
  }

  /** Something in flight will bring `x` to the joined client `c`. */
  ghost predicate OnWay(s: State, c: nat, x: Item)
    requires c in s.room
  {
    || Uncommitted(s, x) || Carried(s.casting, x) || DownTo(s.down, c, x)
    || PublishedTo(s.publishing, s.room[c], x) || RelayedTo(s.relays, s.room[c], x)
  }

  ghost predicate Reaches(s: State, c: nat, x: Item)
    requires c in s.room
  {
    x in DocOf(s, c) || OnWay(s, c, x)
  }

  /** What a client emits in the step: what its document gains. */
  ghost function Emitted(s: State, a: Action): Doc {
    match a
    case Edit(c, u) => if c in s.room then u - DocOf(s, c) else {}
    case Receive(m) => if m in s.down && m.at in s.room then m.u - DocOf(s, m.at) else {}
    case _ => {}
  }

  /** Client `c` hears nothing of what process `p` publishes: its own process is another and has not subscribed. */
  ghost predicate Deaf(s: State, p: nat, c: nat) {
    c in s.room && s.room[c] != p && s.room[c] !in s.subs
  }

  /** What a publish keeps from a deaf client: what it brings and nothing else on the way does. */
  ghost function Missed(s: State, a: Action, c: nat): Doc {
    match a
    case Publish(m) =>
      if m in s.publishing && Deaf(s, m.at, c)
      then set x | x in m.u && !Reaches(s.(publishing := s.publishing - multiset{m}), c, x) else {}
    case _ => {}
  }

  /** What the server answers client `c` in the step, as its initial state or to a fetch. */
  ghost function Served(s: State, a: Action, g: Setup, c: nat): Doc {
    match a
    case Init(_, served) => if Inits(s, a, g, c) then served else {}
    case Fetch(d, served) => if d == c && c in g.clients && served <= Total(s, g) then served else {}
    case _ => {}
  }

  /** The step sends its initial state to client `c`. */
  ghost predicate Inits(s: State, a: Action, g: Setup, c: nat) {
    a.Init? && a.c == c && c in s.room && c !in s.inited && a.served <= Total(s, g)
  }

  ghost predicate Enters(s: State, a: Action, g: Setup, c: nat) {
    a.Enter? && a.c == c && c in g.clients && a.p in g.procs && c !in s.room
  }

  // ---------- What one step brings to one client ----------

  lemma CarriedMore(ms: multiset<Msg>, ns: multiset<Msg>, x: Item)
    ensures Carried(ms + ns, x) <==> Carried(ms, x) || Carried(ns, x)
  {
    if m :| m in ms && x in m.u {
      assert m in ms + ns;
    } else if m :| m in ns && x in m.u {
      assert m in ms + ns;
    }
  }

  lemma CarriedLess(ms: multiset<Msg>, m: Msg, x: Item)
    requires m in ms
    ensures Carried(ms, x) <==> Carried(ms - multiset{m}, x) || x in m.u
  {
    assert ms == (ms - multiset{m}) + multiset{m};
    CarriedMore(ms - multiset{m}, multiset{m}, x);
    assert Carried(multiset{m}, x) ==> x in m.u;
    assert x in m.u ==> m in multiset{m};
  }

  lemma DownMore(ms: multiset<Msg>, ns: multiset<Msg>, c: nat, x: Item)
    ensures DownTo(ms + ns, c, x) <==> DownTo(ms, c, x) || DownTo(ns, c, x)
  {
    if m :| m in ms && m.at == c && x in m.u {
      assert m in ms + ns;
    } else if m :| m in ns && m.at == c && x in m.u {
      assert m in ms + ns;
    }
  }

  lemma DownLess(ms: multiset<Msg>, m: Msg, c: nat, x: Item)
    requires m in ms
    ensures DownTo(ms, c, x) <==> DownTo(ms - multiset{m}, c, x) || (m.at == c && x in m.u)
  {
    assert ms == (ms - multiset{m}) + multiset{m};
    DownMore(ms - multiset{m}, multiset{m}, c, x);
    assert DownTo(multiset{m}, c, x) ==> m.at == c && x in m.u;
    assert m in multiset{m};
  }

  lemma DownToAll(cs: set<nat>, u: Doc, c: nat, x: Item)
    ensures DownTo(ToAll(cs, u), c, x) <==> c in cs && x in u
  {
    if c in cs && x in u {
      ToAllHas(cs, u, Msg(c, u));
    }
  }

  lemma {:induction false} BatchedSplits(batch: seq<Msg>, p: nat, x: Item)
    requires Batched(batch, x)
    ensures Batched(Others(batch, p), x) || x in JoinAll(Mine(batch, p))
  {
    var rest, own := batch[1..], if batch[0].at == p then [batch[0].u] else [];
    JoinAllConcat(own, Mine(rest, p));
    JoinAllOne(batch[0].u);
    if x !in batch[0].u {
      var k :| 0 <= k < |batch| && x in batch[k].u;
      assert rest[k - 1] == batch[k];
      BatchedSplits(rest, p, x);
      if Batched(Others(rest, p), x) {
        var j :| 0 <= j < |Others(rest, p)| && x in Others(rest, p)[j].u;
        assert Others(batch, p)[|batch[..1]| - (if batch[0].at == p then 1 else 0) + j] == Others(rest, p)[j];
      }
    } else if batch[0].at != p {
      assert Others(batch, p)[0] == batch[0];
    }
  }

  lemma {:induction false} BatchedIff(batch: seq<Msg>, p: nat, x: Item)
    ensures Batched(batch, x) <==> Batched(Others(batch, p), x) || x in JoinAll(Mine(batch, p))
  {
    if Batched(batch, x) {
      BatchedSplits(batch, p, x);
    }
    if batch != [] {
      var rest, own := batch[1..], if batch[0].at == p then [batch[0].u] else [];
      BatchedIff(rest, p, x);
      JoinAllConcat(own, Mine(rest, p));
      JoinAllOne(batch[0].u);
      BatchedCons(batch, x);
      BatchedCons(Others(batch, p), x);
    }
  }

  lemma BatchedCons(batch: seq<Msg>, x: Item)
    ensures Batched(batch, x) <==> batch != [] && (x in batch[0].u || Batched(batch[1..], x))
  {
    if batch != [] {
      if Batched(batch[1..], x) {
        var k :| 0 <= k < |batch[1..]| && x in batch[1..][k].u;
        assert batch[k + 1] == batch[1..][k];
      }
      assert forall k :: 1 <= k < |batch| ==> batch[k] == batch[1..][k - 1];
    }
  }

  lemma AbsorbReaches(s: State, g: Setup, c: nat, u: Doc, d: nat, x: Item)
    requires d in s.room
    ensures Reaches(Absorb(s, g, c, u), d, x) <==> Reaches(s, d, x) || x in u - DocOf(s, c)
    ensures Uncommitted(Absorb(s, g, c, u), x) <==> Uncommitted(s, x) || x in u - DocOf(s, c)
  {
    var gain, t := u - DocOf(s, c), Absorb(s, g, c, u);
    if gain != {} {
      CarriedMore(s.up, multiset{Msg(c, gain)}, x);
      CarriedOne(Msg(c, gain), x);
      DownMore(s.down, ToAll(Tabs(g, c), gain), d, x);
      DownToAll(Tabs(g, c), gain, d, x);
    }
  }

  lemma CarriedOne(m: Msg, x: Item)
    ensures Carried(multiset{m}, x) <==> x in m.u
  {
    assert m in multiset{m};
  }

  lemma EditReaches(s: State, c: nat, u: Doc, g: Setup, d: nat, x: Item)
    requires d in s.room
    ensures var t := Apply(s, Edit(c, u), g);
            && (Reaches(t, d, x) <==> Reaches(s, d, x) || x in Emitted(s, Edit(c, u)))
            && (Uncommitted(t, x) <==> Uncommitted(s, x) || x in Emitted(s, Edit(c, u)))
  {
    var s' := s.(edits := s.edits + (u - DocOf(s, c)));
    assert Reaches(s', d, x) == Reaches(s, d, x) && Uncommitted(s', x) == Uncommitted(s, x);
    AbsorbReaches(s', g, c, u, d, x);
  }

  lemma TakenReaches(s: State, m: Msg, d: nat, x: Item)
    requires d in s.room && m in s.down
    ensures var s' := s.(down := s.down - multiset{m});
            && (Reaches(s, d, x) <==> Reaches(s', d, x) || (m.at == d && x in m.u))
            && Uncommitted(s', x) == Uncommitted(s, x)
  {
    DownLess(s.down, m, d, x);
  }

  lemma ReceiveReaches(s: State, m: Msg, g: Setup, d: nat, x: Item)
    requires d in s.room
    ensures var t := Apply(s, Receive(m), g);
            && (Reaches(t, d, x) <==> Reaches(s, d, x) || x in Emitted(s, Receive(m)))
            && (Uncommitted(t, x) <==> Uncommitted(s, x) || x in Emitted(s, Receive(m)))
  {
    if m in s.down && m.at in s.room {
      var s' := s.(down := s.down - multiset{m});
      assert Apply(s, Receive(m), g) == Absorb(s', g, m.at, m.u);
      TakenReaches(s, m, d, x);
      AbsorbReaches(s', g, m.at, m.u, d, x);
      assert m.at == d && x in m.u ==> x in DocOf(s', d) || x in m.u - DocOf(s', m.at);
    }
  }

  lemma AcceptReaches(s: State, m: Msg, g: Setup, x: Item)
    ensures Uncommitted(Apply(s, Accept(m), g), x) == Uncommitted(s, x)
  {
    if m in s.up && m.at in s.room {
      var held := Msg(s.room[m.at], m.u);
      CarriedLess(s.up, m, x);
      BatchedSnoc(s.batch, held, x);
    }
  }

  lemma BatchedSnoc(batch: seq<Msg>, m: Msg, x: Item)
    ensures Batched(batch + [m], x) <==> Batched(batch, x) || x in m.u
  {
    assert (batch + [m])[|batch|] == m;
    if k :| 0 <= k < |batch| && x in batch[k].u {
      assert (batch + [m])[k] == batch[k];
    }
  }

  lemma FlushReaches(s: State, p: nat, g: Setup, x: Item)
    ensures Uncommitted(Apply(s, Flush(p), g), x) == Uncommitted(s, x)
  {
    if Mine(s.batch, p) != [] {
      var merged := Msg(p, JoinAll(Mine(s.batch, p)));
      CarriedMore(s.merging, multiset{merged}, x);
      CarriedOne(merged, x);
      BatchedIff(s.batch, p, x);
    }
  }

  lemma CommitReaches(s: State, m: Msg, base: Doc, g: Setup, x: Item)
    ensures var t := Apply(s, Commit(m, base), g);
            && (Uncommitted(t, x) || Carried(t.casting, x) <==> Uncommitted(s, x) || Carried(s.casting, x))
            && (Uncommitted(t, x) ==> Uncommitted(s, x))
            && (Uncommitted(s, x) ==> Uncommitted(t, x) || (t != s && x in m.u))
  {
    if m in s.merging && base <= Total(s, g) {
      CarriedLess(s.merging, m, x);
      CarriedMore(s.casting, multiset{m}, x);
      CarriedOne(m, x);
    }
  }

  lemma RelayedMore(rs: multiset<Relay>, ns: multiset<Relay>, p: nat, x: Item)
    ensures RelayedTo(rs + ns, p, x) <==> RelayedTo(rs, p, x) || RelayedTo(ns, p, x)
  {
    if r :| r in rs && r.to == p && r.origin != p && x in r.u {
      assert r in rs + ns;
    } else if r :| r in ns && r.to == p && r.origin != p && x in r.u {
      assert r in rs + ns;
    }
  }

  lemma RelayedToAll(ps: set<nat>, o: nat, u: Doc, p: nat, x: Item)
    ensures RelayedTo(RelaysTo(ps, o, u), p, x) <==> p in ps && o != p && x in u
  {
    if p in ps {
      RelaysToHas(ps, o, u, Relay(p, o, u));
    }
  }

  lemma PublishedMore(ms: multiset<Msg>, ns: multiset<Msg>, p: nat, x: Item)
    ensures PublishedTo(ms + ns, p, x) <==> PublishedTo(ms, p, x) || PublishedTo(ns, p, x)
  {
    if m :| m in ms && m.at != p && x in m.u {
      assert m in ms + ns;
    } else if m :| m in ns && m.at != p && x in m.u {
      assert m in ms + ns;
    }
  }

  lemma PublishedOne(m: Msg, p: nat, x: Item)
    ensures PublishedTo(multiset{m}, p, x) <==> m.at != p && x in m.u
  {
    assert m in multiset{m};
  }

  /** An update goes to the room of the committing process directly, and has yet to be published for the others. */
  lemma CastReaches(s: State, m: Msg, g: Setup, c: nat, x: Item)
    requires c in s.room
    ensures Reaches(Apply(s, Cast(m), g), c, x) == Reaches(s, c, x)
  {
    if m in s.casting {
      CarriedLess(s.casting, m, x);
      DownMore(s.down, ToAll(RoomOf(s, m.at), m.u), c, x);
      DownToAll(RoomOf(s, m.at), m.u, c, x);
      PublishedMore(s.publishing, multiset{m}, s.room[c], x);
      PublishedOne(m, s.room[c], x);
    }
  }

  lemma PublishTakes(s: State, m: Msg, c: nat, x: Item)
    requires c in s.room && m in s.publishing
    ensures Reaches(s, c, x) <==>
            Reaches(s.(publishing := s.publishing - multiset{m}), c, x) || (m.at != s.room[c] && x in m.u)
  {
    var rest := s.publishing - multiset{m};
    assert s.publishing == rest + multiset{m};
    PublishedMore(rest, multiset{m}, s.room[c], x);
    PublishedOne(m, s.room[c], x);
  }

  /** It reaches those that have subscribed when it is published. */
  lemma PublishReaches(s: State, m: Msg, g: Setup, c: nat, x: Item)
    requires c in s.room
    ensures Reaches(Apply(s, Publish(m), g), c, x) <==> Reaches(s, c, x) && x !in Missed(s, Publish(m), c)
  {
    if m in s.publishing {
      PublishAdds(s, m, g, c, x);
      PublishTakes(s, m, c, x);
    }
  }

  lemma PublishAdds(s: State, m: Msg, g: Setup, c: nat, x: Item)
    requires c in s.room && m in s.publishing
    ensures Reaches(Apply(s, Publish(m), g), c, x) <==>
            || Reaches(s.(publishing := s.publishing - multiset{m}), c, x)
            || (x in m.u && s.room[c] != m.at && s.room[c] in s.subs)
  {
    RelayedMore(s.relays, RelaysTo(s.subs, m.at, m.u), s.room[c], x);
    RelayedToAll(s.subs, m.at, m.u, s.room[c], x);
  }

  lemma RelayedOne(r: Relay, p: nat, x: Item)
    ensures RelayedTo(multiset{r}, p, x) <==> r.to == p && r.origin != p && x in r.u
  {
    assert r in multiset{r};
  }

  lemma DeliverReaches(s: State, r: Relay, g: Setup, c: nat, x: Item)
    requires c in s.room
    ensures Reaches(Apply(s, Deliver(r), g), c, x) == Reaches(s, c, x)
  {
    if r in s.relays {
      assert s.relays == (s.relays - multiset{r}) + multiset{r};
      RelayedMore(s.relays - multiset{r}, multiset{r}, s.room[c], x);
      RelayedOne(r, s.room[c], x);
      DownMore(s.down, ToAll(RoomOf(s, r.to), r.u), c, x);
      DownToAll(RoomOf(s, r.to), r.u, c, x);
    }
  }

  lemma DownAdds(s: State, t: State, m: Msg, c: nat, x: Item)
    requires c in s.room && t == s.(inited := t.inited, down := s.down + multiset{m})
    ensures Reaches(t, c, x) <==> Reaches(s, c, x) || (m.at == c && x in m.u)
  {
    DownMore(s.down, multiset{m}, c, x);
    DownLess(multiset{m}, m, c, x);
  }

  /** An initial state or a fetch brings its client what it serves, and nothing else to anyone. */
  lemma ServeReaches(s: State, a: Action, g: Setup, c: nat, x: Item)
    requires c in s.room && (a.Init? || a.Fetch?)
    ensures Reaches(Apply(s, a, g), c, x) <==> Reaches(s, c, x) || x in Served(s, a, g, c)
  {
    var t := Apply(s, a, g);
    if t != s {
      DownAdds(s, t, Msg(a.c, a.served), c, x);
    }
  }

  lemma SubscribeReaches(s: State, p: nat, g: Setup, c: nat, x: Item)
    requires c in s.room
    ensures Reaches(Apply(s, Subscribe(p), g), c, x) == Reaches(s, c, x)
  {
  }

  lemma EnterReaches(s: State, d: nat, p: nat, g: Setup, c: nat, x: Item)
    requires c in s.room
    ensures Reaches(Apply(s, Enter(d, p), g), c, x) == Reaches(s, c, x)
  {
  }

  /** Accepting, flushing and committing only move an update along. */
  lemma MoveReaches(s: State, a: Action, g: Setup, c: nat, x: Item)
    requires c in s.room && (a.Accept? || a.Flush? || a.Commit?)
    ensures Reaches(Apply(s, a, g), c, x) == Reaches(s, c, x)
  {
    match a
    case Accept(m) => AcceptReaches(s, m, g, x);
    case Flush(p) => FlushReaches(s, p, g, x);
    case Commit(m, base) => CommitReaches(s, m, base, g, x);
  }

  /**
   The step theorem: to a joined client nothing is lost but what a publish keeps from it, and nothing comes but
   what some client emits in the step and what the server answers the client itself.
  */
  lemma StepReaches(s: State, a: Action, g: Setup, c: nat, x: Item)
    requires Known(s, g) && c in s.room
    ensures Reaches(Apply(s, a, g), c, x) <==>
            (Reaches(s, c, x) && x !in Missed(s, a, c)) || x in Emitted(s, a) || x in Served(s, a, g, c)
  {
    match a
    case Enter(d, p) => EnterReaches(s, d, p, g, c, x);
    case Init(_, _) => ServeReaches(s, a, g, c, x);
    case Fetch(_, _) => ServeReaches(s, a, g, c, x);
    case Edit(d, u) => EditReaches(s, d, u, g, c, x);
    case Receive(m) => ReceiveReaches(s, m, g, c, x);
    case Subscribe(p) => SubscribeReaches(s, p, g, c, x);
    case Cast(m) => CastReaches(s, m, g, c, x);
    case Publish(m) => PublishReaches(s, m, g, c, x);
    case Deliver(r) => DeliverReaches(s, r, g, c, x);
    case _ => MoveReaches(s, a, g, c, x);
  }

  // ---------- What an initial state has to bring ----------

  /** Every edit has reached client `c` or is on its way to it. */
  ghost predicate ClientCovered(s: State, g: Setup, c: nat)
    requires c in s.room
  {
    forall x :: x in Total(s, g) ==> Reaches(s, c, x)
  }

  ghost predicate Covered(s: State, g: Setup) {
    forall c :: c in s.inited && c in s.room ==> ClientCovered(s, g, c)
  }

  /** What client `c` lacks and nothing will bring it. */
  ghost function AtRest(s: State, g: Setup, c: nat): Doc
    requires c in s.room
  {
    set x | x in Total(s, g) && !Reaches(s, c, x)
  }

  lemma TotalEffect(s: State, a: Action, g: Setup)
    ensures Total(Apply(s, a, g), g) == Total(s, g) + if a.Edit? then Emitted(s, a) else {}
  {
  }

  lemma MissedIsKnown(s: State, a: Action, g: Setup, c: nat)
    requires Known(s, g)
    ensures Missed(s, a, c) <= Total(s, g) && (Missed(s, a, c) != {} ==> a.Publish?)
  {
  }

  lemma StepAtRest(s: State, a: Action, g: Setup, c: nat)
    requires Known(s, g) && c in s.room
    ensures AtRest(Apply(s, a, g), g, c) ==
            AtRest(s, g, c) + Missed(s, a, c) - Emitted(s, a) - Served(s, a, g, c)
  {
    TotalEffect(s, a, g);
    var t := Apply(s, a, g);
    forall x ensures x in AtRest(t, g, c) <==>
                     x in AtRest(s, g, c) + Missed(s, a, c) && x !in Emitted(s, a) && x !in Served(s, a, g, c)
    {
      StepReaches(s, a, g, c, x);
      MissedIsKnown(s, a, g, c);
    }
  }

  /**
   What the initial state of `c` has to bring: the operations that `c` lacked and that were not in flight
   when it entered its room, and those that were published past it since, less those that some client has
   emitted or that the client has fetched since.
  */
  ghost function Due(actions: seq<Action>, g: Setup, c: nat): Doc {
    if actions == [] then {} else
      var init, a := actions[..|actions| - 1], actions[|actions| - 1];
      if Enters(Run(init, g), a, g, c) then AtRest(Run(actions, g), g, c)
      else Due(init, g, c) + Missed(Run(init, g), a, c) - Emitted(Run(init, g), a) - Served(Run(init, g), a, g, c)
  }

  lemma RoomEffect(s: State, a: Action, g: Setup, c: nat)
    ensures var t := Apply(s, a, g);
            && (c in t.room <==> c in s.room || Enters(s, a, g, c))
            && (c in t.inited <==> c in s.inited || Inits(s, a, g, c))
  {
  }

  lemma {:induction false} DueIsAtRest(actions: seq<Action>, g: Setup, c: nat)
    ensures var s := Run(actions, g);
            c in s.room && c !in s.inited ==> Due(actions, g, c) == AtRest(s, g, c)
  {
    if actions != [] {
      var init, a := actions[..|actions| - 1], actions[|actions| - 1];
      DueIsAtRest(init, g, c);
      RunIsKnown(init, g);
      RoomEffect(Run(init, g), a, g, c);
      if c in Run(init, g).room && c !in Run(init, g).inited {
        StepAtRest(Run(init, g), a, g, c);
      }
    }
  }

  ghost predicate AlwaysCovered(actions: seq<Action>, g: Setup) {
    Covered(Run(actions, g), g) && (actions == [] || AlwaysCovered(actions[..|actions| - 1], g))
  }

  /** Every initial state contains what is due to its client. */
  ghost predicate AlwaysSupplied(actions: seq<Action>, g: Setup) {
    actions == [] || (
      var init, a := actions[..|actions| - 1], actions[|actions| - 1];
      && AlwaysSupplied(init, g)
      && (a.Init? && Inits(Run(init, g), a, g, a.c) ==> Due(init, g, a.c) <= a.served))
  }

  /** Nothing is published past a client whose initial state was sent. */
  ghost predicate Heard(s: State, a: Action) {
    forall c :: c in s.inited ==> Missed(s, a, c) == {}
  }

  ghost predicate AlwaysHeard(actions: seq<Action>, g: Setup) {
    actions == [] || (AlwaysHeard(actions[..|actions| - 1], g)
                      && Heard(Run(actions[..|actions| - 1], g), actions[|actions| - 1]))
  }

  lemma CoveredMeansNothingAtRest(s: State, g: Setup, c: nat)
    requires c in s.room
    ensures ClientCovered(s, g, c) <==> AtRest(s, g, c) == {}
  {
    if !ClientCovered(s, g, c) {
      var x :| x in Total(s, g) && !Reaches(s, c, x);
      assert x in AtRest(s, g, c);
    }
  }

  lemma ClientCoveredIff(s: State, a: Action, g: Setup, c: nat)
    requires Known(s, g) && c in s.room
    ensures ClientCovered(Apply(s, a, g), g, c) <==>
            AtRest(s, g, c) + Missed(s, a, c) <= Emitted(s, a) + Served(s, a, g, c)
  {
    StepAtRest(s, a, g, c);
    CoveredMeansNothingAtRest(Apply(s, a, g), g, c);
  }

  /** What a step has to do for its own client, if it sends an initial state. */
  ghost predicate Supplies(s: State, a: Action, g: Setup) {
    a.Init? && Inits(s, a, g, a.c) ==> AtRest(s, g, a.c) <= a.served
  }

  lemma StepCoversClientIff(s: State, a: Action, g: Setup, c: nat)
    requires Known(s, g) && Covered(s, g) && c in s.room
    ensures c in s.inited ==> (ClientCovered(Apply(s, a, g), g, c) <==> Missed(s, a, c) == {})
    ensures Inits(s, a, g, c) ==> (ClientCovered(Apply(s, a, g), g, c) <==> AtRest(s, g, c) <= a.served)
  {
    ClientCoveredIff(s, a, g, c);
    MissedIsKnown(s, a, g, c);
    CoveredMeansNothingAtRest(s, g, c);
    assert Missed(s, a, c) != {} ==> Emitted(s, a) == {} && Served(s, a, g, c) == {};
  }

  lemma StepKeepsCoveredIff(s: State, a: Action, g: Setup)
    requires Known(s, g) && Covered(s, g)
    ensures Covered(Apply(s, a, g), g) <==> Supplies(s, a, g) && Heard(s, a)
  {
    var t := Apply(s, a, g);
    forall c ensures (c in t.inited <==> c in s.inited || Inits(s, a, g, c)) && (c in s.inited ==> c in s.room)
                     && (c in s.room ==> c in t.room)
    {
      RoomEffect(s, a, g, c);
    }
    forall c | c in s.room
      ensures c in s.inited ==> (ClientCovered(t, g, c) <==> Missed(s, a, c) == {})
      ensures Inits(s, a, g, c) ==> (ClientCovered(t, g, c) <==> AtRest(s, g, c) <= a.served)
    {
      StepCoversClientIff(s, a, g, c);
    }
  }

  /**
   At every point of a run, each initialised client that lacks an edit has a message on its way that
   carries it: if and only if every initial state contained what was due to its client, and nothing was
   published past an initialised one. Nothing is asked of the commits.
  */
  lemma {:induction false} AlwaysCoveredIff(actions: seq<Action>, g: Setup)
    ensures AlwaysCovered(actions, g) <==> AlwaysSupplied(actions, g) && AlwaysHeard(actions, g)
  {
    if actions != [] {
      var init, a := actions[..|actions| - 1], actions[|actions| - 1];
      AlwaysCoveredIff(init, g);
      RunIsKnown(init, g);
      if AlwaysCovered(init, g) {
        StepKeepsCoveredIff(Run(init, g), a, g);
        if a.Init? {
          DueIsAtRest(init, g, a.c);
        }
      }
    }
  }

  // ---------- What is stored ----------

  /** The stored content has `x` or will get it. */
  ghost predicate ItemStored(s: State, x: Item) {
    x in s.content || Uncommitted(s, x)
  }

  ghost predicate Stored(s: State, g: Setup) {
    forall x :: x in Total(s, g) ==> ItemStored(s, x)
  }

  /** What a commit overwrites is either in what it stores or still to be committed. */
  ghost predicate Faithful(s: State, a: Action, g: Setup) {
    a.Commit? && a.m in s.merging && a.base <= Total(s, g)
    ==> forall x :: x in s.content && x !in a.base + a.m.u ==> Uncommitted(s, x)
  }

  lemma StepUncommitted(s: State, a: Action, g: Setup, x: Item)
    ensures !a.Commit? && Uncommitted(s, x) ==> Uncommitted(Apply(s, a, g), x)
    ensures x in Emitted(s, a) ==> Uncommitted(Apply(s, a, g), x)
  {
    match a
    case Edit(c, u) => if c in s.room { EditReaches(s, c, u, g, c, x); }
    case Receive(m) => if m.at in s.room { ReceiveReaches(s, m, g, m.at, x); }
    case Accept(m) => AcceptReaches(s, m, g, x);
    case Flush(p) => FlushReaches(s, p, g, x);
    case _ =>
  }

  lemma StepKeepsItemStored(s: State, a: Action, g: Setup, x: Item)
    requires Faithful(s, a, g) && x in Total(Apply(s, a, g), g)
    requires x in Total(s, g) ==> ItemStored(s, x)
    ensures ItemStored(Apply(s, a, g), x)
  {
    TotalEffect(s, a, g);
    StepUncommitted(s, a, g, x);
    if a.Commit? {
      CommitReaches(s, a.m, a.base, g, x);
    }
  }

  lemma StepKeepsStoredIff(s: State, a: Action, g: Setup)
    requires Known(s, g) && Stored(s, g)
    ensures Stored(Apply(s, a, g), g) <==> Faithful(s, a, g)
  {
    var t := Apply(s, a, g);
    if Faithful(s, a, g) {
      forall x | x in Total(t, g) ensures ItemStored(t, x) {
        assert x in Total(s, g) ==> ItemStored(s, x);
        StepKeepsItemStored(s, a, g, x);
      }
    } else {
      var x :| x in s.content && x !in a.base + a.m.u && !Uncommitted(s, x);
      CommitReaches(s, a.m, a.base, g, x);
      assert x in Total(t, g) && !ItemStored(t, x);
    }
  }

  ghost predicate AlwaysStored(actions: seq<Action>, g: Setup) {
    Stored(Run(actions, g), g) && (actions == [] || AlwaysStored(actions[..|actions| - 1], g))
  }

  ghost predicate AlwaysFaithful(actions: seq<Action>, g: Setup) {
    actions == [] || (AlwaysFaithful(actions[..|actions| - 1], g)
                      && Faithful(Run(actions[..|actions| - 1], g), actions[|actions| - 1], g))
  }

  /** At every point of a run each edit is stored or still to be committed, if and only if every commit was faithful. */
  lemma {:induction false} AlwaysStoredIff(actions: seq<Action>, g: Setup)
    ensures AlwaysStored(actions, g) <==> AlwaysFaithful(actions, g)
  {
    if actions != [] {
      var init := actions[..|actions| - 1];
      AlwaysStoredIff(init, g);
      RunIsKnown(init, g);
      if AlwaysStored(init, g) {
        StepKeepsStoredIff(Run(init, g), actions[|actions| - 1], g);
      }
    }
  }

  // ---------- Initial states that are recent enough ----------

  /** What was stored when `c` entered its room. */
  ghost function JoinContent(actions: seq<Action>, g: Setup, c: nat): Doc {
    if actions == [] then {} else
      var init, a := actions[..|actions| - 1], actions[|actions| - 1];
      if Enters(Run(init, g), a, g, c) then Run(init, g).content else JoinContent(init, g, c)
  }

  lemma RestIsStored(s: State, g: Setup, c: nat)
    requires c in s.room && Stored(s, g)
    ensures AtRest(s, g, c) <= s.content
  {
    forall x | x in AtRest(s, g, c) ensures x in s.content {
      assert ItemStored(s, x);
    }
  }

  lemma {:induction false} DueWithinJoinContent(actions: seq<Action>, g: Setup, c: nat)
    requires AlwaysStored(actions, g) && AlwaysRecent(actions, g)
    ensures Due(actions, g, c) <= JoinContent(actions, g, c)
  {
    if actions != [] {
      var init, a := actions[..|actions| - 1], actions[|actions| - 1];
      DueWithinJoinContent(init, g, c);
      RecentIsHeard(init, a, g, c);
      if Enters(Run(init, g), a, g, c) {
        RestIsStored(Run(actions, g), g, c);
      }
    }
  }

  /**
   An initial state at least as recent as its client's join, a commit that contains what it overwrites, and a
   publish that every process with joined clients has subscribed to hear.
  */
  ghost predicate Recent(init: seq<Action>, a: Action, g: Setup) {
    match a
    case Init(c, served) => JoinContent(init, g, c) <= served
    case Commit(m, base) => Run(init, g).content <= base + m.u
    case Publish(m) => forall c :: c in Run(init, g).room ==> !Deaf(Run(init, g), m.at, c)
    case _ => true
  }

  ghost predicate AlwaysRecent(actions: seq<Action>, g: Setup) {
    actions == [] || (AlwaysRecent(actions[..|actions| - 1], g)
                      && Recent(actions[..|actions| - 1], actions[|actions| - 1], g))
  }

  lemma RecentIsHeard(init: seq<Action>, a: Action, g: Setup, c: nat)
    requires Recent(init, a, g)
    ensures Missed(Run(init, g), a, c) == {}
  {
  }

  /** That is enough, whatever happens between the join and the initial state. */
  lemma {:induction false} RecentIsEnough(actions: seq<Action>, g: Setup)
    requires AlwaysRecent(actions, g)
    ensures AlwaysCovered(actions, g) && AlwaysStored(actions, g)
  {
    AlwaysCoveredIff(actions, g);
    AlwaysStoredIff(actions, g);
    if actions != [] {
      var init, a := actions[..|actions| - 1], actions[|actions| - 1];
      RecentIsEnough(init, g);
      AlwaysCoveredIff(init, g);
      AlwaysStoredIff(init, g);
      if a.Init? {
        DueWithinJoinContent(init, g, a.c);
      }
      forall c ensures Missed(Run(init, g), a, c) == {} {
        RecentIsHeard(init, a, g, c);
      }
    }
  }

  /** Nothing is in flight. */
  ghost predicate Quiet(s: State) {
    && s.up == multiset{} && s.batch == [] && s.merging == multiset{} && s.casting == multiset{}
    && s.publishing == multiset{} && s.relays == multiset{} && s.down == multiset{}
  }

  lemma QuietReaches(s: State, g: Setup, c: nat, x: Item)
    requires Quiet(s) && c in s.room
    ensures !Uncommitted(s, x) && (Reaches(s, c, x) <==> x in DocOf(s, c))
  {
  }

  lemma QuietRest(s: State, g: Setup, c: nat)
    requires Known(s, g) && Quiet(s) && Stored(s, g) && c in s.room
    ensures AtRest(s, g, c) == s.content - DocOf(s, c)
  {
    forall x | x in Total(s, g) ensures x in s.content && (Reaches(s, c, x) <==> x in DocOf(s, c)) {
      assert ItemStored(s, x);
      QuietReaches(s, g, c, x);
    }
  }

  lemma CoveredSnoc(actions: seq<Action>, a: Action, g: Setup)
    requires AlwaysCovered(actions, g)
    ensures var s := Run(actions, g);
            AlwaysCovered(actions + [a], g) <==> Supplies(s, a, g) && Heard(s, a)
  {
    RunIsKnown(actions, g);
    RunSnoc(actions, a, g);
    StepKeepsCoveredIff(Run(actions, g), a, g);
    assert (actions + [a])[..|actions|] == actions;
  }

  /** What is at rest for a client that enters quietly and gets what was queued for it. */
  lemma QuietEntry(s: State, g: Setup, c: nat, p: nat, queued: Doc)
    requires Known(s, g) && Quiet(s) && Stored(s, g) && Enters(s, Enter(c, p), g, c) && queued <= Total(s, g)
    ensures var t := Apply(s, Enter(c, p), g);
            AtRest(Apply(t, Fetch(c, queued), g), g, c) == s.content - DocOf(s, c) - queued
  {
    var t := Apply(s, Enter(c, p), g);
    StepKeepsKnown(s, Enter(c, p), g);
    assert Stored(t, g) by {
      forall x | x in Total(t, g) ensures ItemStored(t, x) {
        assert ItemStored(s, x);
      }
    }
    QuietRest(t, g, c);
    StepAtRest(t, Fetch(c, queued), g, c);
  }

  /**
   So there it is necessary as well as sufficient that what was queued for the client's user and the initial state
   together contain it.
  */
  lemma QuietJoinIff(actions: seq<Action>, g: Setup, c: nat, p: nat, queued: Doc, served: Doc)
    requires AlwaysCovered(actions, g) && Quiet(Run(actions, g)) && Stored(Run(actions, g), g)
    requires Enters(Run(actions, g), Enter(c, p), g, c) && queued + served <= Total(Run(actions, g), g)
    ensures var s := Run(actions, g);
            AlwaysCovered(actions + [Enter(c, p)] + [Fetch(c, queued)] + [Init(c, served)], g)
            <==> s.content - DocOf(s, c) <= queued + served
  {
    var joined := actions + [Enter(c, p)];
    var flushed := joined + [Fetch(c, queued)];
    RunIsKnown(actions, g);
    RunSnoc(actions, Enter(c, p), g);
    RunSnoc(joined, Fetch(c, queued), g);
    CoveredSnoc(actions, Enter(c, p), g);
    CoveredSnoc(joined, Fetch(c, queued), g);
    CoveredSnoc(flushed, Init(c, served), g);
    QuietEntry(Run(actions, g), g, c, p, queued);
    QuietInit(Run(flushed, g), g, c, served);
    RoomEffect(Run(actions, g), Enter(c, p), g, c);
  }

  lemma QuietInit(s: State, g: Setup, c: nat, served: Doc)
    requires c in s.room && c !in s.inited && served <= Total(s, g)
    ensures Supplies(s, Init(c, served), g) && Heard(s, Init(c, served)) <==> AtRest(s, g, c) <= served
  {
  }

  // ---------- Where runs end ----------

  /** Where a covered run can go no further every client has every edit, and so has the store unless it lost some. */
  lemma SettledMeansConverged(s: State, g: Setup)
    requires Known(s, g) && Covered(s, g) && g.procs != {} && Settled(s, g)
    ensures forall c :: c in g.clients ==> DocOf(s, c) == Total(s, g)
    ensures Stored(s, g) <==> s.content == Total(s, g)
  {
    SettledIffIdle(s, g);
    assert forall x :: !Uncommitted(s, x);
    forall x | x in Total(s, g) ensures Stored(s, g) ==> x in s.content {
      assert Stored(s, g) ==> ItemStored(s, x);
    }
    forall c | c in g.clients ensures DocOf(s, c) == Total(s, g) {
      forall x | x in Total(s, g) ensures x in DocOf(s, c) {
        assert ClientCovered(s, g, c) && Reaches(s, c, x);
      }
    }
  }

  /**
   Over runs: wherever a run whose initial states contained what was due, and in which nothing was published past
   initialised clients, settles, all clients agree and have every edit, even one that the store has lost to
   overlapping commits.
  */
  lemma RunsConverge(actions: seq<Action>, g: Setup)
    requires AlwaysSupplied(actions, g) && AlwaysHeard(actions, g)
    requires g.procs != {} && Settled(Run(actions, g), g)
    ensures forall c :: c in g.clients ==> DocOf(Run(actions, g), c) == g.base + Run(actions, g).edits
  {
    AlwaysCoveredIff(actions, g);
    RunIsKnown(actions, g);
    SettledMeansConverged(Run(actions, g), g);
  }

  /** If also no commit overwrites what it does not contain, the store has exactly the same document. */
  lemma RecentRunsConverge(actions: seq<Action>, g: Setup)
    requires AlwaysRecent(actions, g) && g.procs != {} && Settled(Run(actions, g), g)
    ensures var s := Run(actions, g);
            s.content == g.base + s.edits && forall c :: c in g.clients ==> DocOf(s, c) == s.content
  {
    RecentIsEnough(actions, g);
    RunIsKnown(actions, g);
    SettledMeansConverged(Run(actions, g), g);
  }

  ghost function Later(s: State, tail: seq<Action>, g: Setup): State
    decreases |tail|
  {
    if tail == [] then s else Later(Apply(s, tail[0], g), tail[1..], g)
  }

  /** `x` is at rest for the initialised client `c`, and every other client has it. */
  ghost predicate LeftBehind(s: State, g: Setup, c: nat, x: Item) {
    && Known(s, g) && c in s.inited && c in s.room && x in AtRest(s, g, c)
    && forall d :: d in g.clients && d != c ==> x in DocOf(s, d)
  }

  lemma DocsGrow(s: State, a: Action, g: Setup, d: nat)
    ensures DocOf(s, d) <= DocOf(Apply(s, a, g), d)
  {
  }

  lemma NobodyEmits(s: State, a: Action, g: Setup, c: nat, x: Item)
    requires LeftBehind(s, g, c, x) && (a.Edit? ==> x !in a.u)
    ensures x !in Emitted(s, a)
  {
    assert a.Receive? && a.m in s.down && x in a.m.u ==> DownTo(s.down, a.m.at, x);
  }

  /** A step leaves the client behind, or the client fetches the operation in it. */
  lemma StepLeavesBehind(s: State, a: Action, g: Setup, c: nat, x: Item)
    requires LeftBehind(s, g, c, x) && (a.Edit? ==> x !in a.u)
    ensures if x in Served(s, a, g, c) then Secured(Apply(s, a, g), c, x) else LeftBehind(Apply(s, a, g), g, c, x)
  {
    var t := Apply(s, a, g);
    StepKeepsKnown(s, a, g);
    RoomEffect(s, a, g, c);
    NobodyEmits(s, a, g, c, x);
    StepAtRest(s, a, g, c);
    if x in Served(s, a, g, c) {
      assert Msg(c, a.served) in t.down;
    } else {
      assert x in AtRest(t, g, c);
      forall d | d in g.clients && d != c ensures x in DocOf(t, d) {
        DocsGrow(s, a, g, d);
      }
    }
  }

  /** Client `c` has `x`, or a message of its own brings it. */
  ghost predicate Secured(s: State, c: nat, x: Item) {
    x in DocOf(s, c) || DownTo(s.down, c, x)
  }

  lemma DownGrows(s: State, a: Action, g: Setup)
    requires !a.Receive?
    ensures s.down <= Apply(s, a, g).down
  {
  }

  lemma ReceiveKeepsSecured(s: State, m: Msg, g: Setup, c: nat, x: Item)
    requires Secured(s, c, x) && m in s.down && m.at in s.room
    ensures Secured(Apply(s, Receive(m), g), c, x)
  {
    var s' := s.(down := s.down - multiset{m});
    assert Apply(s, Receive(m), g) == Absorb(s', g, m.at, m.u);
    DownLess(s.down, m, c, x);
    DownMore(s'.down, ToAll(Tabs(g, m.at), m.u - DocOf(s, m.at)), c, x);
    DocsGrow(s, Receive(m), g, c);
  }

  lemma StepKeepsSecured(s: State, a: Action, g: Setup, c: nat, x: Item)
    requires Secured(s, c, x)
    ensures Secured(Apply(s, a, g), c, x)
  {
    if a.Receive? {
      if a.m in s.down && a.m.at in s.room {
        ReceiveKeepsSecured(s, a.m, g, c, x);
      }
    } else {
      DocsGrow(s, a, g, c);
      DownGrows(s, a, g);
    }
  }

  /** In the continuation `tail` client `c` is served `x`. */
  ghost predicate Fetches(s: State, tail: seq<Action>, g: Setup, c: nat, x: Item)
    decreases |tail|
  {
    tail != [] && (x in Served(s, tail[0], g, c) || Fetches(Apply(s, tail[0], g), tail[1..], g, c, x))
  }

  ghost predicate NotRemade(tail: seq<Action>, x: Item) {
    forall i :: 0 <= i < |tail| && tail[i].Edit? ==> x !in tail[i].u
  }

  lemma {:induction false} SecuredStays(s: State, tail: seq<Action>, g: Setup, c: nat, x: Item)
    requires Secured(s, c, x)
    ensures Secured(Later(s, tail, g), c, x)
    decreases |tail|
  {
    if tail != [] {
      StepKeepsSecured(s, tail[0], g, c, x);
      SecuredStays(Apply(s, tail[0], g), tail[1..], g, c, x);
    }
  }

  /**
   Unless the same operation is made anew, a client that was left behind stays so, whatever else happens, for as
   long as it fetches nothing that contains the operation; once it does, the operation is its own.
  */
  lemma {:induction false} LeftBehindUntilFetch(s: State, tail: seq<Action>, g: Setup, c: nat, x: Item)
    requires LeftBehind(s, g, c, x) && NotRemade(tail, x)
    ensures var t := Later(s, tail, g);
            if Fetches(s, tail, g, c, x) then Secured(t, c, x) else LeftBehind(t, g, c, x) && x !in DocOf(t, c)
    decreases |tail|
  {
    if tail != [] {
      var t := Apply(s, tail[0], g);
      StepLeavesBehind(s, tail[0], g, c, x);
      if x in Served(s, tail[0], g, c) {
        SecuredStays(t, tail[1..], g, c, x);
      } else {
        LeftBehindUntilFetch(t, tail[1..], g, c, x);
      }
    }
  }

  /** Where such a continuation has nothing in flight, the client has the operation if and only if it fetched it. */
  lemma CaughtUpIffFetched(s: State, tail: seq<Action>, g: Setup, c: nat, x: Item)
    requires LeftBehind(s, g, c, x) && NotRemade(tail, x) && Later(s, tail, g).down == multiset{}
    ensures x in DocOf(Later(s, tail, g), c) <==> Fetches(s, tail, g, c, x)
  {
    LeftBehindUntilFetch(s, tail, g, c, x);
  }

  /**
   In every continuation from `s` that does not make it anew, an operation of `u` is missing from the document
   of `c` until `c` fetches it, and is or arrives there once it has.
  */
  ghost predicate OnlyByFetch(s: State, g: Setup, c: nat, u: Doc) {
    forall tail, x :: x in u && NotRemade(tail, x) ==>
      var t := Later(s, tail, g);
      if Fetches(s, tail, g, c, x) then Secured(t, c, x) else x !in DocOf(t, c)
  }

  lemma LeftBehindMeansOnlyByFetch(s: State, g: Setup, c: nat, u: Doc)
    requires forall x :: x in u ==> LeftBehind(s, g, c, x)
    ensures OnlyByFetch(s, g, c, u)
  {
    forall tail, x | x in u && NotRemade(tail, x)
      ensures var t := Later(s, tail, g);
              if Fetches(s, tail, g, c, x) then Secured(t, c, x) else x !in DocOf(t, c)
    {
      LeftBehindUntilFetch(s, tail, g, c, x);
    }
  }

  // ---------- Sibling tabs ----------

  lemma AbsorbTellsSiblings(s: State, g: Setup, c: nat, u: Doc, d: nat)
    requires d in Tabs(g, c) && u - DocOf(s, c) != {}
    ensures Msg(d, u - DocOf(s, c)) in Absorb(s, g, c, u).down
  {
    ToAllHas(Tabs(g, c), u - DocOf(s, c), Msg(d, u - DocOf(s, c)));
  }

  lemma ReceivedIsOwn(s: State, m: Msg, g: Setup)
    requires m in s.down && m.at in s.room
    ensures m.u <= DocOf(Apply(s, Receive(m), g), m.at)
  {
    assert forall x :: x in m.u ==> x in DocOf(s, m.at) || x in m.u - DocOf(s, m.at);
    DocsGrow(s, Receive(m), g, m.at);
  }

  /** The step changes the document of client `c`. */
  ghost predicate Gains(s: State, a: Action, c: nat) {
    && ((a.Edit? && a.c == c) || (a.Receive? && a.m.at == c && a.m in s.down))
    && c in s.room && Emitted(s, a) != {}
  }

  lemma GainsTellSiblings(s: State, a: Action, g: Setup, c: nat, d: nat)
    requires Gains(s, a, c) && d in Tabs(g, c) && d in s.room
    ensures Msg(d, Emitted(s, a)) in Apply(s, a, g).down && d in Apply(s, a, g).room
  {
    if a.Edit? {
      AbsorbTellsSiblings(s.(edits := s.edits + (a.u - DocOf(s, c))), g, c, a.u, d);
    } else {
      AbsorbTellsSiblings(s.(down := s.down - multiset{a.m}), g, c, a.m.u, d);
    }
    RoomEffect(s, a, g, d);
  }

  /** What a tab gains reaches its siblings over the broadcast channel, without the server. */
  lemma SiblingsGetGain(s: State, a: Action, g: Setup, c: nat, d: nat)
    requires Gains(s, a, c) && d in Tabs(g, c) && d in s.room
    ensures Msg(d, Emitted(s, a)) in Apply(s, a, g).down
    ensures Emitted(s, a) <= DocOf(Apply(Apply(s, a, g), Receive(Msg(d, Emitted(s, a))), g), d)
  {
    GainsTellSiblings(s, a, g, c, d);
    ReceivedIsOwn(Apply(s, a, g), Msg(d, Emitted(s, a)), g);
  }
}
