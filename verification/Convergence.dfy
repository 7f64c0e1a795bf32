/**
 The realtime protocol on one document as a transition system: clients, any number of gateway
 processes, and everything in flight between them. Every websocket update is accepted and every
 flush commits, though on a base that may be out of date, and an initial state may be served from
 an outdated cache; messages may overtake each other.
*/
module Convergence {
  import opened Yjs

  /** An update addressed to or held for `at`: a client, or a gateway process. */
  datatype Msg = Msg(at: nat, u: Doc)

  /** A published update; the subscriber `to` drops what it published itself. */
  datatype Relay = Relay(to: nat, origin: nat, u: Doc)

  /** `tabs` gives, for each client, the tabs that share its broadcast channel; `base` is the initial content. */
  datatype Setup = Setup(procs: set<nat>, clients: set<nat>, tabs: map<nat, set<nat>>, base: Doc)

  /**
   `room` maps joined clients to their process, `inited` are those whose initial state was sent, and
   `subs` are the processes that have subscribed to the document's channel. Updates travel `up` to a
   process, wait in its `batch`, are being applied (`merging`), are committed but not yet emitted to
   the room (`casting`), or not yet published (`publishing`), and travel to other processes (`relays`)
   and `down` to clients. `edits` joins all local edits and `emits` counts client emits.
  */
  datatype State = State(room: map<nat, nat>, inited: set<nat>, subs: set<nat>, docs: map<nat, Doc>,
                         up: multiset<Msg>, batch: seq<Msg>, merging: multiset<Msg>, casting: multiset<Msg>,
                         publishing: multiset<Msg>, relays: multiset<Relay>, down: multiset<Msg>,
                         content: Doc, edits: Doc, emits: nat)

  /**
   A fetch is anything else the server sends one client: the `y-init` after a reconnect, the load of a page, the
   resync of a client that comes online, or what was queued for the client's user while offline, which is emitted
   at a join before the initial state.
  */
  datatype Action =
    | Enter(c: nat, p: nat)
    | Init(c: nat, served: Doc)
    | Subscribe(p: nat)
    | Fetch(c: nat, served: Doc)
    | Edit(c: nat, u: Doc)
    | Receive(m: Msg)
    | Accept(m: Msg)
    | Flush(p: nat)
    | Commit(m: Msg, base: Doc)
    | Cast(m: Msg)
    | Publish(m: Msg)
    | Deliver(r: Relay)

  ghost function Start(g: Setup): State {
    State(map[], {}, {}, map[], multiset{}, [], multiset{}, multiset{}, multiset{}, multiset{}, multiset{},
          g.base, {}, 0)
  }

  function DocOf(s: State, c: nat): Doc {
    if c in s.docs then s.docs[c] else {}
  }

  ghost function Tabs(g: Setup, c: nat): set<nat> {
    if c in g.tabs then g.tabs[c] * g.clients else {}
  }

  ghost function ToAll(cs: set<nat>, u: Doc): multiset<Msg> {
    multiset(set c | c in cs :: Msg(c, u))
  }

  ghost function RelaysTo(ps: set<nat>, origin: nat, u: Doc): multiset<Relay> {
    multiset(set p | p in ps :: Relay(p, origin, u))
  }

  ghost function RoomOf(s: State, p: nat): set<nat> {
    set c | c in s.room && s.room[c] == p
  }

  function Mine(batch: seq<Msg>, p: nat): seq<Doc> {
    if batch == [] then [] else (if batch[0].at == p then [batch[0].u] else []) + Mine(batch[1..], p)
  }

  function Others(batch: seq<Msg>, p: nat): seq<Msg> {
    if batch == [] then [] else (if batch[0].at == p then [] else [batch[0]]) + Others(batch[1..], p)
  }

  /**
   The client's handler: only a change that gains something fires the event, whatever its origin, and
   the event's gain goes to the server and to the sibling tabs.
  */
  ghost function Absorb(s: State, g: Setup, c: nat, u: Doc): State {
    var gain := u - DocOf(s, c);
    if gain == {} then s
    else s.(docs := s.docs[c := DocOf(s, c) + u],
            up := s.up + multiset{Msg(c, gain)},
            down := s.down + ToAll(Tabs(g, c), gain),
            emits := s.emits + 1)
  }

  ghost function Apply(s: State, a: Action, g: Setup): State {
    match a
    case Enter(c, p) => if c in g.clients && p in g.procs && c !in s.room then s.(room := s.room[c := p]) else s
    case Init(c, served) =>
      if c in s.room && c !in s.inited && served <= Total(s, g)
      then s.(inited := s.inited + {c}, down := s.down + multiset{Msg(c, served)}) else s
    case Subscribe(p) => if p in g.procs then s.(subs := s.subs + {p}) else s
    case Fetch(c, served) =>
      if c in g.clients && served <= Total(s, g) then s.(down := s.down + multiset{Msg(c, served)}) else s
    case Edit(c, u) =>
      if c in s.room then Absorb(s.(edits := s.edits + (u - DocOf(s, c))), g, c, u) else s
    case Receive(m) =>
      if m in s.down && m.at in s.room then Absorb(s.(down := s.down - multiset{m}), g, m.at, m.u) else s
    case Accept(m) =>
      if m in s.up && m.at in s.room
      then s.(up := s.up - multiset{m}, batch := s.batch + [Msg(s.room[m.at], m.u)]) else s
    case Flush(p) =>
      if Mine(s.batch, p) != []
      then s.(batch := Others(s.batch, p), merging := s.merging + multiset{Msg(p, JoinAll(Mine(s.batch, p)))}) else s
    case Commit(m, base) =>
      if m in s.merging && base <= Total(s, g)
      then s.(merging := s.merging - multiset{m}, casting := s.casting + multiset{m}, content := base + m.u) else s
    case Cast(m) =>
      if m in s.casting
      then s.(casting := s.casting - multiset{m}, down := s.down + ToAll(RoomOf(s, m.at), m.u),
              publishing := s.publishing + multiset{m}) else s
    case Publish(m) =>
      if m in s.publishing
      then s.(publishing := s.publishing - multiset{m}, relays := s.relays + RelaysTo(s.subs, m.at, m.u)) else s
    case Deliver(r) =>
      if r in s.relays
      then s.(relays := s.relays - multiset{r},
              down := if r.origin == r.to then s.down else s.down + ToAll(RoomOf(s, r.to), r.u)) else s
  }

  ghost function Run(actions: seq<Action>, g: Setup): State {
    if actions == [] then Start(g) else Apply(Run(actions[..|actions| - 1], g), actions[|actions| - 1], g)
  }

  // ---------- Invariants ----------

  ghost function Total(s: State, g: Setup): Doc {
    g.base + s.edits
  }

  /** Every message in `ms` carries only `t` and goes to one of `cs`. */
  ghost predicate Sent(ms: multiset<Msg>, t: Doc, cs: set<nat>) {
    forall m :: m in ms ==> m.u <= t && m.at in cs
  }

  ghost predicate Pending(batch: seq<Msg>, t: Doc, ps: set<nat>) {
    forall k :: 0 <= k < |batch| ==> batch[k].u <= t && batch[k].at in ps
  }

  /** Nothing anywhere but the initial content and the edits; rooms name known clients and processes. */
  ghost predicate Known(s: State, g: Setup) {
    var t := Total(s, g);
    && Sent(s.up, t, s.room.Keys) && Sent(s.down, t, g.clients)
    && Sent(s.merging, t, g.procs) && Sent(s.casting, t, g.procs) && Sent(s.publishing, t, g.procs)
    && Pending(s.batch, t, g.procs)
    && (forall r :: r in s.relays ==> r.u <= t)
    && s.content <= t
    && (forall c :: c in s.docs ==> s.docs[c] <= t && c in g.clients)
    && s.room.Keys <= g.clients && s.inited <= s.room.Keys && s.subs <= g.procs
    && (forall c :: c in s.room ==> s.room[c] in g.procs)
  }

  // ---------- What each step keeps ----------

  lemma ToAllHas(cs: set<nat>, u: Doc, m: Msg)
    ensures m in ToAll(cs, u) <==> m.at in cs && m.u == u
  {
  }

  lemma RelaysToHas(ps: set<nat>, o: nat, u: Doc, r: Relay)
    ensures r in RelaysTo(ps, o, u) <==> r.to in ps && r.origin == o && r.u == u
  {
  }

  lemma SentMore(ms: multiset<Msg>, ns: multiset<Msg>, t: Doc, cs: set<nat>)
    ensures Sent(ms + ns, t, cs) <==> Sent(ms, t, cs) && Sent(ns, t, cs)
  {
    forall m | m in ms || m in ns ensures m in ms + ns {}
  }

  lemma SentToAll(cs: set<nat>, u: Doc, t: Doc, to: set<nat>)
    requires cs <= to && u <= t
    ensures Sent(ToAll(cs, u), t, to)
  {
    forall m | m in ToAll(cs, u) ensures m.u <= t && m.at in to {
      ToAllHas(cs, u, m);
    }
  }

  lemma AbsorbKeepsKnown(s: State, g: Setup, c: nat, u: Doc)
    requires Known(s, g) && c in s.room && u <= Total(s, g)
    ensures Known(Absorb(s, g, c, u), g)
  {
    var gain, t := u - DocOf(s, c), Total(s, g);
    SentToAll(Tabs(g, c), gain, t, g.clients);
    SentMore(s.down, ToAll(Tabs(g, c), gain), t, g.clients);
    SentMore(s.up, multiset{Msg(c, gain)}, t, s.room.Keys);
  }

  lemma {:induction false} MineWithin(batch: seq<Msg>, p: nat, t: Doc, ps: set<nat>)
    requires Pending(batch, t, ps)
    ensures forall k :: 0 <= k < |Mine(batch, p)| ==> Mine(batch, p)[k] <= t
    ensures Pending(Others(batch, p), t, ps)
    ensures Mine(batch, p) != [] ==> p in ps
  {
    if batch != [] {
      MineWithin(batch[1..], p, t, ps);
    }
  }

  lemma {:induction false} JoinWithin(us: seq<Doc>, t: Doc)
    requires forall k :: 0 <= k < |us| ==> us[k] <= t
    ensures JoinAll(us) <= t
  {
    if us != [] {
      JoinWithin(us[..|us| - 1], t);
    }
  }

  lemma FlushKeepsKnown(s: State, p: nat, g: Setup)
    requires Known(s, g)
    ensures Known(Apply(s, Flush(p), g), g)
  {
    var t := Total(s, g);
    MineWithin(s.batch, p, t, g.procs);
    JoinWithin(Mine(s.batch, p), t);
    SentMore(s.merging, multiset{Msg(p, JoinAll(Mine(s.batch, p)))}, t, g.procs);
  }

  lemma CastKeepsKnown(s: State, m: Msg, g: Setup)
    requires Known(s, g)
    ensures Known(Apply(s, Cast(m), g), g)
  {
    if m in s.casting {
      var t := Total(s, g);
      SentToAll(RoomOf(s, m.at), m.u, t, g.clients);
      SentMore(s.down, ToAll(RoomOf(s, m.at), m.u), t, g.clients);
      SentMore(s.publishing, multiset{m}, t, g.procs);
    }
  }

  lemma PublishKeepsKnown(s: State, m: Msg, g: Setup)
    requires Known(s, g)
    ensures Known(Apply(s, Publish(m), g), g)
  {
    if m in s.publishing {
      forall r | r in RelaysTo(s.subs, m.at, m.u) ensures r.u <= Total(s, g) {
        RelaysToHas(s.subs, m.at, m.u, r);
      }
    }
  }

  lemma DeliverKeepsKnown(s: State, r: Relay, g: Setup)
    requires Known(s, g)
    ensures Known(Apply(s, Deliver(r), g), g)
  {
    if r in s.relays {
      SentToAll(RoomOf(s, r.to), r.u, Total(s, g), g.clients);
      SentMore(s.down, ToAll(RoomOf(s, r.to), r.u), Total(s, g), g.clients);
    }
  }

  lemma EditKeepsKnown(s: State, c: nat, u: Doc, g: Setup)
    requires Known(s, g)
    ensures Known(Apply(s, Edit(c, u), g), g)
  {
    if c in s.room {
      var s' := s.(edits := s.edits + (u - DocOf(s, c)));
      assert Total(s, g) <= Total(s', g);
      assert Known(s', g) && u <= Total(s', g);
      AbsorbKeepsKnown(s', g, c, u);
    }
  }

  lemma ReceiveKeepsKnown(s: State, m: Msg, g: Setup)
    requires Known(s, g)
    ensures Known(Apply(s, Receive(m), g), g)
  {
    if m in s.down && m.at in s.room {
      var s' := s.(down := s.down - multiset{m});
      assert Known(s', g);
      AbsorbKeepsKnown(s', g, m.at, m.u);
    }
  }

  lemma MoveKeepsKnown(s: State, a: Action, g: Setup)
    requires Known(s, g) && (a.Accept? || a.Commit?)
    ensures Known(Apply(s, a, g), g)
  {
    var t := Total(s, g);
    if a.Commit? {
      SentMore(s.casting, multiset{a.m}, t, g.procs);
    }
  }

  lemma EnterKeepsKnown(s: State, c: nat, p: nat, g: Setup)
    requires Known(s, g)
    ensures Known(Apply(s, Enter(c, p), g), g)
  {
    assert s.room.Keys <= (s.room[c := p]).Keys;
  }

  lemma ServeKeepsKnown(s: State, a: Action, g: Setup)
    requires Known(s, g) && (a.Init? || a.Fetch?)
    ensures Known(Apply(s, a, g), g)
  {
    SentMore(s.down, multiset{Msg(a.c, a.served)}, Total(s, g), g.clients);
  }

  /** Everything anywhere came from the initial content or from an edit. */
  lemma StepKeepsKnown(s: State, a: Action, g: Setup)
    requires Known(s, g)
    ensures Known(Apply(s, a, g), g)
  {
    match a
    case Edit(c, u) => EditKeepsKnown(s, c, u, g);
    case Receive(m) => ReceiveKeepsKnown(s, m, g);
    case Accept(_) => MoveKeepsKnown(s, a, g);
    case Commit(_, _) => MoveKeepsKnown(s, a, g);
    case Flush(p) => FlushKeepsKnown(s, p, g);
    case Cast(m) => CastKeepsKnown(s, m, g);
    case Publish(m) => PublishKeepsKnown(s, m, g);
    case Deliver(r) => DeliverKeepsKnown(s, r, g);
    case Enter(c, p) => EnterKeepsKnown(s, c, p, g);
    case Subscribe(_) =>
    case _ => ServeKeepsKnown(s, a, g);
  }

  lemma {:induction false} RunIsKnown(actions: seq<Action>, g: Setup)
    ensures Known(Run(actions, g), g)
  {
    if actions != [] {
      RunIsKnown(actions[..|actions| - 1], g);
      StepKeepsKnown(Run(actions[..|actions| - 1], g), actions[|actions| - 1], g);
    }
  }

  // ---------- Settling ----------

  /** Nothing is in flight, every client is joined and initialised, and every process subscribed. */
  ghost predicate Idle(s: State, g: Setup) {
    && s.up == multiset{} && s.batch == [] && s.merging == multiset{} && s.casting == multiset{}
    && s.publishing == multiset{} && s.relays == multiset{} && s.down == multiset{}
    && s.inited == g.clients && s.subs == g.procs
  }

  /** No step but an edit or a fetch can change anything. */
  ghost predicate Settled(s: State, g: Setup) {
    forall a: Action :: !Moves(s, a, g)
  }

  ghost predicate Moves(s: State, a: Action, g: Setup) {
    !a.Edit? && !a.Fetch? && Apply(s, a, g) != s
  }

  lemma ReceiveMoves(s: State, m: Msg, g: Setup)
    requires m in s.down && m.at in s.room
    ensures Moves(s, Receive(m), g)
  {
    var s' := Apply(s, Receive(m), g);
    if m.u - DocOf(s, m.at) == {} {
      assert |s'.down| < |s.down|;
    } else {
      assert s'.emits == s.emits + 1;
    }
  }

  lemma AcceptMoves(s: State, m: Msg, g: Setup)
    requires m in s.up && m.at in s.room
    ensures Moves(s, Accept(m), g)
  {
    assert Apply(s, Accept(m), g).up[m] < s.up[m];
  }

  lemma CommitMoves(s: State, m: Msg, g: Setup)
    requires m in s.merging
    ensures Moves(s, Commit(m, {}), g)
  {
    assert Apply(s, Commit(m, {}), g).merging[m] < s.merging[m];
  }

  lemma CastMoves(s: State, m: Msg, g: Setup)
    requires m in s.casting
    ensures Moves(s, Cast(m), g)
  {
    assert Apply(s, Cast(m), g).casting[m] < s.casting[m];
  }

  lemma PublishMoves(s: State, m: Msg, g: Setup)
    requires m in s.publishing
    ensures Moves(s, Publish(m), g)
  {
    assert Apply(s, Publish(m), g).publishing[m] < s.publishing[m];
  }

  lemma DeliverMoves(s: State, r: Relay, g: Setup)
    requires r in s.relays
    ensures Moves(s, Deliver(r), g)
  {
    assert Apply(s, Deliver(r), g).relays[r] < s.relays[r];
  }

  lemma FlushMoves(s: State, p: nat, g: Setup)
    requires Mine(s.batch, p) != []
    ensures Moves(s, Flush(p), g)
  {
    assert |Apply(s, Flush(p), g).merging| > |s.merging|;
  }

  lemma InFlightMoves(s: State, g: Setup)
    requires Known(s, g) && s.inited == g.clients && s.subs == g.procs && !Idle(s, g)
    ensures exists a :: Moves(s, a, g)
  {
    if s.up != multiset{} {
      var m :| m in s.up;
      AcceptMoves(s, m, g);
    } else if s.batch != [] {
      FlushMoves(s, s.batch[0].at, g);
    } else if s.merging != multiset{} {
      var m :| m in s.merging;
      CommitMoves(s, m, g);
    } else if s.casting != multiset{} {
      var m :| m in s.casting;
      CastMoves(s, m, g);
    } else if s.publishing != multiset{} {
      var m :| m in s.publishing;
      PublishMoves(s, m, g);
    } else if s.relays != multiset{} {
      var r :| r in s.relays;
      DeliverMoves(s, r, g);
    } else {
      var m :| m in s.down;
      ReceiveMoves(s, m, g);
    }
  }

  lemma JoiningMoves(s: State, g: Setup)
    requires Known(s, g) && g.procs != {} && (s.inited != g.clients || s.subs != g.procs)
    ensures exists a :: Moves(s, a, g)
  {
    if s.subs != g.procs {
      var p :| p in g.procs && p !in s.subs;
      assert p in Apply(s, Subscribe(p), g).subs;
      assert Moves(s, Subscribe(p), g);
      return;
    }
    var c :| c in g.clients && c !in s.inited;
    if c in s.room {
      assert c in Apply(s, Init(c, s.content), g).inited;
      assert Moves(s, Init(c, s.content), g);
    } else {
      var p :| p in g.procs;
      assert c in Apply(s, Enter(c, p), g).room;
      assert Moves(s, Enter(c, p), g);
    }
  }

  /** The protocol never gets stuck: while anything is pending, some step but an edit or a fetch changes the state. */
  lemma SettledIffIdle(s: State, g: Setup)
    requires Known(s, g) && g.procs != {}
    ensures Settled(s, g) <==> Idle(s, g)
  {
    if !Idle(s, g) {
      if s.inited != g.clients || s.subs != g.procs {
        JoiningMoves(s, g);
      } else {
        InFlightMoves(s, g);
      }
      var a :| Moves(s, a, g);
      assert !Settled(s, g);
    }
  }

  lemma RunSnoc(actions: seq<Action>, a: Action, g: Setup)
    ensures Run(actions + [a], g) == Apply(Run(actions, g), a, g)
  {
    assert (actions + [a])[..|actions|] == actions;
  }
}
