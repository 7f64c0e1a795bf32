/**
 Clients send back what they receive from others, because the handler ignores where a change
 came from. These echoes die out: every client sends each operation at most once, and once
 editing and fetching stop only a bounded number of steps remains.
*/
module Echoes {
  import opened Yjs
  import opened Convergence

  // ---------- How much clients can send ----------

  /** Which client has which operation. */
  ghost function Held(s: State): set<(nat, Item)> {
    set c, x | c in s.docs && x in s.docs[c] :: (c, x)
  }

  /** Which client lacks which operation. */
  ghost function Lacking(s: State, g: Setup): set<(nat, Item)> {
    set c, x | c in g.clients && x in Total(s, g) && x !in DocOf(s, c) :: (c, x)
  }

  lemma SubsetCard<T>(a: set<T>, b: set<T>)
    requires a <= b
    ensures |a| <= |b| && (a != b ==> |a| < |b|)
  {
    assert b == a + (b - a);
    if a != b {
      var x :| x in b - a;
    }
  }

  lemma {:induction false} PairsCard(cs: set<nat>, d: Doc, ps: set<(nat, Item)>)
    requires forall p :: p in ps ==> p.0 in cs && p.1 in d
    ensures |ps| <= |cs| * |d|
  {
    if ps != {} {
      var p :| p in ps;
      var c := p.0;
      var mine, rest := set q | q in ps && q.0 == c, set q | q in ps && q.0 != c;
      PairsCard(cs - {c}, d, rest);
      OneRowCard(c, d, mine);
      assert ps == mine + rest;
      assert |cs| == |cs - {c}| + 1;
    }
  }

  lemma {:induction false} OneRowCard(c: nat, d: Doc, ps: set<(nat, Item)>)
    requires forall p :: p in ps ==> p.0 == c && p.1 in d
    ensures |ps| <= |d|
  {
    if ps != {} {
      var p :| p in ps;
      OneRowCard(c, d - {p.1}, ps - {p});
    }
  }

  lemma AbsorbIsPaidFor(s: State, g: Setup, c: nat, u: Doc)
    requires s.emits <= |Held(s)|
    ensures Absorb(s, g, c, u).emits <= |Held(Absorb(s, g, c, u))|
  {
    var s' := Absorb(s, g, c, u);
    if s'.emits != s.emits {
      var x :| x in u - DocOf(s, c);
      assert (c, x) in Held(s') && (c, x) !in Held(s);
      assert Held(s) <= Held(s');
      SubsetCard(Held(s), Held(s'));
    }
  }

  lemma {:induction false} EmitsArePaidFor(actions: seq<Action>, g: Setup)
    ensures Run(actions, g).emits <= |Held(Run(actions, g))|
  {
    if actions != [] {
      var s, a := Run(actions[..|actions| - 1], g), actions[|actions| - 1];
      EmitsArePaidFor(actions[..|actions| - 1], g);
      if a.Edit? {
        AbsorbIsPaidFor(s.(edits := s.edits + (a.u - DocOf(s, a.c))), g, a.c, a.u);
      } else if a.Receive? {
        AbsorbIsPaidFor(s.(down := s.down - multiset{a.m}), g, a.m.at, a.m.u);
      }
    }
  }

  /** Over any run, client emits are at most clients times distinct operations. */
  lemma EmitsAreBounded(actions: seq<Action>, g: Setup)
    ensures Run(actions, g).emits <= |g.clients| * |Total(Run(actions, g), g)|
  {
    var s := Run(actions, g);
    EmitsArePaidFor(actions, g);
    RunIsKnown(actions, g);
    PairsCard(g.clients, Total(s, g), Held(s));
  }

  // ---------- How many steps remain ----------

  /** `a * w` as repeated addition. */
  ghost function Times(a: nat, w: nat): nat {
    if a == 0 then 0 else Times(a - 1, w) + w
  }

  lemma {:induction false} TimesAdds(a: nat, b: nat, w: nat)
    ensures Times(a + b, w) == Times(a, w) + Times(b, w)
  {
    if b > 0 {
      TimesAdds(a, b - 1, w);
    }
  }

  lemma TimesDrops(a: nat, b: nat, w: nat)
    requires b < a
    ensures Times(b, w) + w <= Times(a, w)
  {
    TimesAdds(b, a - b, w);
  }

  /** How many operations clients lack, how much joining is to do, and how much is in flight at each stage. */
  datatype Sizes = Sizes(lacking: nat, joins: int, up: nat, batch: nat, merging: nat, casting: nat,
                         publishing: nat, relays: nat, down: nat)

  ghost function SizesOf(s: State, g: Setup): Sizes {
    Sizes(|Lacking(s, g)|, 3 * |g.clients| + |g.procs| - |s.room.Keys| - 2 * |s.inited| - |s.subs|,
          |s.up|, |s.batch|, |s.merging|, |s.casting|, |s.publishing|, |s.relays|, |s.down|)
  }

  /** The most steps `z` leaves for `n` clients and `p` processes. */
  ghost function Weight(z: Sizes, n: nat, p: nat): int {
    var r := Times(p, n + 1) + 1;
    var k := r + n + 1;
    Times(z.lacking, k + n + 3) + z.joins + Times(z.up, k + 3) + Times(z.batch, k + 2) + Times(z.merging, k + 1)
    + Times(z.casting, k) + Times(z.publishing, r) + Times(z.relays, n + 1) + z.down
  }

  /** An upper bound on the steps left if nobody edits or fetches. */
  ghost function StepsLeft(s: State, g: Setup): int {
    Weight(SizesOf(s, g), |g.clients|, |g.procs|)
  }

  /** What one step that is neither an edit nor a fetch does to the sizes. */
  ghost predicate Shrinks(z: Sizes, y: Sizes, n: nat, p: nat) {
    || y == z.(joins := z.joins - 1)
    || y == z.(joins := z.joins - 2, down := z.down + 1)
    || (z.down > 0 && y == z.(down := z.down - 1))
    || (z.down > 0 && y.lacking < z.lacking && y.down < z.down + n
        && y == z.(lacking := y.lacking, up := z.up + 1, down := y.down))
    || (z.up > 0 && y == z.(up := z.up - 1, batch := z.batch + 1))
    || (y.batch < z.batch && y == z.(batch := y.batch, merging := z.merging + 1))
    || (z.merging > 0 && y == z.(merging := z.merging - 1, casting := z.casting + 1))
    || (z.casting > 0 && y.down <= z.down + n
        && y == z.(casting := z.casting - 1, publishing := z.publishing + 1, down := y.down))
    || (z.publishing > 0 && z.relays <= y.relays <= z.relays + p
        && y == z.(publishing := z.publishing - 1, relays := y.relays))
    || (z.relays > 0 && y.down <= z.down + n && y == z.(relays := z.relays - 1, down := y.down))
  }

  lemma ShrinkingWeighsLess(z: Sizes, y: Sizes, n: nat, p: nat)
    requires Shrinks(z, y, n, p)
    ensures Weight(y, n, p) < Weight(z, n, p)
  {
    var k := Times(p, n + 1) + 1 + n + 1;
    if y.lacking < z.lacking {
      TimesDrops(z.lacking, y.lacking, k + n + 3);
    }
    if y.batch < z.batch {
      TimesDrops(z.batch, y.batch, k + 2);
    }
    if z.relays < y.relays <= z.relays + p {
      RelaysWeigh(z.relays, y.relays - z.relays, n, p);
    }
  }

  lemma RelaysWeigh(before: nat, more: nat, n: nat, p: nat)
    requires more <= p
    ensures Times(before + more, n + 1) <= Times(before, n + 1) + Times(p, n + 1)
  {
    TimesAdds(before, more, n + 1);
    TimesAdds(more, p - more, n + 1);
  }

  lemma {:induction false} ToAllCard(cs: set<nat>, u: Doc)
    ensures |ToAll(cs, u)| == |cs|
  {
    if cs == {} {
      assert ToAll(cs, u) == multiset{};
    } else {
      var c :| c in cs;
      ToAllCard(cs - {c}, u);
      var all, rest := set d | d in cs :: Msg(d, u), set d | d in cs - {c} :: Msg(d, u);
      assert all == rest + {Msg(c, u)};
    }
  }

  lemma {:induction false} RelaysToCard(ps: set<nat>, o: nat, u: Doc)
    ensures |RelaysTo(ps, o, u)| == |ps|
  {
    if ps == {} {
      assert RelaysTo(ps, o, u) == multiset{};
    } else {
      var p :| p in ps;
      RelaysToCard(ps - {p}, o, u);
      var all, rest := set q | q in ps :: Relay(q, o, u), set q | q in ps - {p} :: Relay(q, o, u);
      assert all == rest + {Relay(p, o, u)};
    }
  }

  /** A step that leaves the edits and the documents alone leaves what clients lack. */
  lemma SameLacking(s: State, s': State, g: Setup)
    requires s'.edits == s.edits && s'.docs == s.docs
    ensures Lacking(s', g) == Lacking(s, g)
  {
  }

  lemma AbsorbLacks(s: State, g: Setup, c: nat, u: Doc)
    requires c in g.clients && u <= Total(s, g) && u - DocOf(s, c) != {}
    ensures |Lacking(Absorb(s, g, c, u), g)| < |Lacking(s, g)|
  {
    var s' := Absorb(s, g, c, u);
    var x :| x in u - DocOf(s, c);
    assert (c, x) in Lacking(s, g) && (c, x) !in Lacking(s', g);
    assert Lacking(s', g) <= Lacking(s, g);
    SubsetCard(Lacking(s', g), Lacking(s, g));
  }

  lemma ReceiveShrinks(s: State, m: Msg, g: Setup)
    requires m in s.down && m.at in s.room && m.at in g.clients && m.u <= Total(s, g)
    ensures Shrinks(SizesOf(s, g), SizesOf(Apply(s, Receive(m), g), g), |g.clients|, |g.procs|)
  {
    var s0 := s.(down := s.down - multiset{m});
    var z, y0 := SizesOf(s, g), SizesOf(s0, g);
    SameLacking(s, s0, g);
    assert y0 == z.(down := z.down - 1);
    AbsorbSizes(s0, g, m.at, m.u);
  }

  lemma AbsorbSizes(s: State, g: Setup, c: nat, u: Doc)
    requires c in g.clients && u <= Total(s, g)
    ensures var z, y := SizesOf(s, g), SizesOf(Absorb(s, g, c, u), g);
            y == z || (y.lacking < z.lacking && y.down <= z.down + |g.clients|
                       && y == z.(lacking := y.lacking, up := z.up + 1, down := y.down))
  {
    if u - DocOf(s, c) != {} {
      AbsorbLacks(s, g, c, u);
      ToAllCard(Tabs(g, c), u - DocOf(s, c));
      SubsetCard(Tabs(g, c), g.clients);
    }
  }

  lemma CastShrinks(s: State, m: Msg, g: Setup)
    requires s.room.Keys <= g.clients && m in s.casting
    ensures Shrinks(SizesOf(s, g), SizesOf(Apply(s, Cast(m), g), g), |g.clients|, |g.procs|)
  {
    var z, y := SizesOf(s, g), SizesOf(Apply(s, Cast(m), g), g);
    SameLacking(s, Apply(s, Cast(m), g), g);
    ToAllCard(RoomOf(s, m.at), m.u);
    SubsetCard(RoomOf(s, m.at), g.clients);
    assert y == z.(casting := z.casting - 1, publishing := z.publishing + 1, down := y.down);
  }

  lemma PublishShrinks(s: State, m: Msg, g: Setup)
    requires s.subs <= g.procs && m in s.publishing
    ensures Shrinks(SizesOf(s, g), SizesOf(Apply(s, Publish(m), g), g), |g.clients|, |g.procs|)
  {
    var z, y := SizesOf(s, g), SizesOf(Apply(s, Publish(m), g), g);
    SameLacking(s, Apply(s, Publish(m), g), g);
    RelaysToCard(s.subs, m.at, m.u);
    SubsetCard(s.subs, g.procs);
    assert y == z.(publishing := z.publishing - 1, relays := z.relays + |s.subs|);
  }

  lemma DeliverShrinks(s: State, r: Relay, g: Setup)
    requires s.room.Keys <= g.clients && r in s.relays
    ensures Shrinks(SizesOf(s, g), SizesOf(Apply(s, Deliver(r), g), g), |g.clients|, |g.procs|)
  {
    var z, y := SizesOf(s, g), SizesOf(Apply(s, Deliver(r), g), g);
    SameLacking(s, Apply(s, Deliver(r), g), g);
    ToAllCard(RoomOf(s, r.to), r.u);
    SubsetCard(RoomOf(s, r.to), g.clients);
    assert y == z.(relays := z.relays - 1, down := y.down);
  }

  lemma {:induction false} MineCount(batch: seq<Msg>, p: nat)
    ensures |Mine(batch, p)| + |Others(batch, p)| == |batch|
  {
    if batch != [] {
      MineCount(batch[1..], p);
    }
  }

  lemma FlushShrinks(s: State, p: nat, g: Setup)
    requires Mine(s.batch, p) != []
    ensures Shrinks(SizesOf(s, g), SizesOf(Apply(s, Flush(p), g), g), |g.clients|, |g.procs|)
  {
    var z, y := SizesOf(s, g), SizesOf(Apply(s, Flush(p), g), g);
    SameLacking(s, Apply(s, Flush(p), g), g);
    MineCount(s.batch, p);
    assert y == z.(batch := y.batch, merging := z.merging + 1);
  }

  lemma EnterShrinks(s: State, c: nat, p: nat, g: Setup)
    requires Moves(s, Enter(c, p), g)
    ensures Shrinks(SizesOf(s, g), SizesOf(Apply(s, Enter(c, p), g), g), |g.clients|, |g.procs|)
  {
    var s' := Apply(s, Enter(c, p), g);
    SameLacking(s, s', g);
    assert s'.room.Keys == s.room.Keys + {c};
    assert SizesOf(s', g) == SizesOf(s, g).(joins := SizesOf(s, g).joins - 1);
  }

  lemma SubscribeShrinks(s: State, p: nat, g: Setup)
    requires Moves(s, Subscribe(p), g)
    ensures Shrinks(SizesOf(s, g), SizesOf(Apply(s, Subscribe(p), g), g), |g.clients|, |g.procs|)
  {
    SameLacking(s, Apply(s, Subscribe(p), g), g);
    assert SizesOf(Apply(s, Subscribe(p), g), g) == SizesOf(s, g).(joins := SizesOf(s, g).joins - 1);
  }

  lemma InitShrinks(s: State, c: nat, served: Doc, g: Setup)
    requires Moves(s, Init(c, served), g)
    ensures Shrinks(SizesOf(s, g), SizesOf(Apply(s, Init(c, served), g), g), |g.clients|, |g.procs|)
  {
    SameLacking(s, Apply(s, Init(c, served), g), g);
  }

  lemma AcceptShrinks(s: State, m: Msg, g: Setup)
    requires m in s.up && m.at in s.room
    ensures Shrinks(SizesOf(s, g), SizesOf(Apply(s, Accept(m), g), g), |g.clients|, |g.procs|)
  {
    var z := SizesOf(s, g);
    SameLacking(s, Apply(s, Accept(m), g), g);
    assert SizesOf(Apply(s, Accept(m), g), g) == z.(up := z.up - 1, batch := z.batch + 1);
  }

  lemma CommitShrinks(s: State, m: Msg, base: Doc, g: Setup)
    requires m in s.merging && base <= Total(s, g)
    ensures Shrinks(SizesOf(s, g), SizesOf(Apply(s, Commit(m, base), g), g), |g.clients|, |g.procs|)
  {
    var z := SizesOf(s, g);
    SameLacking(s, Apply(s, Commit(m, base), g), g);
    assert SizesOf(Apply(s, Commit(m, base), g), g) == z.(merging := z.merging - 1, casting := z.casting + 1);
  }

  lemma StepShrinks(s: State, a: Action, g: Setup)
    requires Known(s, g) && Moves(s, a, g)
    ensures Shrinks(SizesOf(s, g), SizesOf(Apply(s, a, g), g), |g.clients|, |g.procs|)
  {
    match a
    case Receive(m) => ReceiveShrinks(s, m, g);
    case Cast(m) => CastShrinks(s, m, g);
    case Publish(m) => PublishShrinks(s, m, g);
    case Deliver(r) => DeliverShrinks(s, r, g);
    case Flush(p) => FlushShrinks(s, p, g);
    case Enter(c, p) => EnterShrinks(s, c, p, g);
    case Init(c, served) => InitShrinks(s, c, served, g);
    case Subscribe(p) => SubscribeShrinks(s, p, g);
    case Accept(m) => AcceptShrinks(s, m, g);
    case Commit(m, base) => CommitShrinks(s, m, base, g);
    case _ =>
  }

  lemma StepsLeftDrops(s: State, a: Action, g: Setup)
    requires Known(s, g) && Moves(s, a, g)
    ensures StepsLeft(Apply(s, a, g), g) < StepsLeft(s, g)
  {
    StepShrinks(s, a, g);
    ShrinkingWeighsLess(SizesOf(s, g), SizesOf(Apply(s, a, g), g), |g.clients|, |g.procs|);
  }

  lemma StepsLeftIsNat(s: State, g: Setup)
    requires Known(s, g)
    ensures StepsLeft(s, g) >= 0
  {
    SubsetCard(s.room.Keys, g.clients);
    SubsetCard(s.inited, s.room.Keys);
    SubsetCard(s.subs, g.procs);
  }

  /** Every step of `tail`, taken from `s`, changes something and none is an edit or a fetch. */
  ghost predicate Quiet(s: State, tail: seq<Action>, g: Setup)
    decreases |tail|
  {
    tail == [] || (Moves(s, tail[0], g) && Quiet(Apply(s, tail[0], g), tail[1..], g))
  }

  lemma {:induction false} QuietIsShort(s: State, tail: seq<Action>, g: Setup)
    requires Known(s, g) && Quiet(s, tail, g)
    ensures |tail| <= StepsLeft(s, g)
    decreases |tail|
  {
    StepsLeftIsNat(s, g);
    if tail != [] {
      StepsLeftDrops(s, tail[0], g);
      StepKeepsKnown(s, tail[0], g);
      QuietIsShort(Apply(s, tail[0], g), tail[1..], g);
    }
  }

  /** Once editing and fetching stop, after any run, no continuation takes more steps than are left. */
  lemma EchoesDieOut(actions: seq<Action>, tail: seq<Action>, g: Setup)
    requires Quiet(Run(actions, g), tail, g)
    ensures |tail| <= StepsLeft(Run(actions, g), g)
  {
    RunIsKnown(actions, g);
    QuietIsShort(Run(actions, g), tail, g);
  }
}
