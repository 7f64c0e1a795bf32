/**
 Two runs of two processes in which a client is left behind until it fetches the content again: its process
 answers the join from an older copy of the content, or has not subscribed yet when the other process publishes.
*/
module Stragglers {
  import opened Common
  import opened Yjs
  import opened Convergence
  import opened Coverage
  import DocumentStore
  import Cluster

  /** Client 0 is on process 0 and client 1 will join on process 1; the document starts empty. */
  const PAIR := Setup({0, 1}, {0, 1}, map[], {})

  /** Client 0 has joined process 0, which has subscribed, and has made `u` its document. */
  ghost function Edited(u: Doc): State {
    Start(PAIR).(room := map[0 := 0], inited := {0}, subs := {0}, docs := map[0 := u], edits := u, emits := 1)
  }

  /** One more step that is recent. */
  lemma Then(actions: seq<Action>, a: Action) returns (longer: seq<Action>)
    requires AlwaysRecent(actions, PAIR) && Recent(actions, a, PAIR)
    ensures longer == actions + [a]
    ensures Run(longer, PAIR) == Apply(Run(actions, PAIR), a, PAIR) && AlwaysRecent(longer, PAIR)
  {
    longer := actions + [a];
    RunSnoc(actions, a, PAIR);
    assert longer[..|actions|] == actions;
  }

  /** Client `c` may join while nothing is in flight or stored. */
  ghost predicate Free(s: State, c: nat) {
    Quiet(s) && s.content == {} && c in {0, 1} && c !in s.room && c !in s.inited && DocOf(s, c) == {}
  }

  lemma JoinIs(s: State, c: nat)
    requires Free(s, c)
    ensures var t := Apply(Apply(s, Enter(c, c), PAIR), Init(c, {}), PAIR);
            Apply(t, Receive(Msg(c, {})), PAIR) == s.(room := s.room[c := c], inited := s.inited + {c})
  {
    var entered := Apply(s, Enter(c, c), PAIR);
    assert entered == s.(room := s.room[c := c]);
    var t := Apply(entered, Init(c, {}), PAIR);
    assert t == entered.(inited := s.inited + {c}, down := multiset{Msg(c, {})});
  }

  lemma EntryContent(before: seq<Action>, c: nat)
    requires Free(Run(before, PAIR), c)
    ensures JoinContent(before + [Enter(c, c)], PAIR, c) == {}
  {
    assert (before + [Enter(c, c)])[..|before|] == before;
  }

  /** Client `c` joins on its process and receives the empty content. */
  lemma JoinedAfter(before: seq<Action>, c: nat) returns (actions: seq<Action>)
    requires AlwaysRecent(before, PAIR) && Free(Run(before, PAIR), c)
    ensures AlwaysRecent(actions, PAIR)
    ensures var s := Run(before, PAIR); Run(actions, PAIR) == s.(room := s.room[c := c], inited := s.inited + {c})
  {
    actions := Then(before, Enter(c, c));
    EntryContent(before, c);
    actions := Then(actions, Init(c, {}));
    actions := Then(actions, Receive(Msg(c, {})));
    JoinIs(Run(before, PAIR), c);
  }

  /** Client 0 has joined on process 0, which has then subscribed. */
  ghost function First(): State {
    Start(PAIR).(room := map[0 := 0], inited := {0}, subs := {0})
  }

  lemma FirstRun() returns (actions: seq<Action>)
    ensures Run(actions, PAIR) == First() && AlwaysRecent(actions, PAIR)
  {
    actions := JoinedAfter([], 0);
    actions := Then(actions, Subscribe(0));
  }

  lemma EditIsEmitted(s: State, u: Doc)
    requires 0 in s.room && DocOf(s, 0) == {} && u != {} && Quiet(s) && s.edits == {} && s.emits == 0
    ensures Apply(s, Edit(0, u), PAIR) == s.(docs := s.docs[0 := u], edits := u, emits := 1, up := multiset{Msg(0, u)})
  {
    assert ToAll(Tabs(PAIR, 0), u) == multiset{};
    assert u - {} == u && {} + u == u;
  }

  /** Client 0 alone is on process 0, which alone has subscribed; it has `u`, and nothing is in flight or stored. */
  ghost predicate Ready(e: State, u: Doc) {
    && Quiet(e) && e.content == {} && e.subs == {0} && 0 in e.room && RoomOf(e, 0) == {0} && DocOf(e, 0) == u
    && Total(e, PAIR) == u
  }

  lemma Accepts(e: State, u: Doc)
    requires Ready(e, u)
    ensures Apply(e.(up := multiset{Msg(0, u)}), Accept(Msg(0, u)), PAIR) == e.(batch := [Msg(0, u)])
  {
    assert 0 in RoomOf(e, 0);
  }

  lemma Flushes(e: State, u: Doc)
    requires Ready(e, u)
    ensures Apply(e.(batch := [Msg(0, u)]), Flush(0), PAIR) == e.(merging := multiset{Msg(0, u)})
  {
    assert [Msg(0, u)][1..] == [];
    assert Mine([Msg(0, u)], 0) == [u] && Others([Msg(0, u)], 0) == [];
    JoinAllOne(u);
  }

  lemma Commits(e: State, u: Doc)
    requires Ready(e, u)
    ensures Apply(e.(merging := multiset{Msg(0, u)}), Commit(Msg(0, u), {}), PAIR)
            == e.(content := u, casting := multiset{Msg(0, u)})
  {
    assert {} + u == u;
  }

  lemma Casts(e: State, u: Doc)
    requires Ready(e, u)
    ensures Apply(e.(content := u, casting := multiset{Msg(0, u)}), Cast(Msg(0, u)), PAIR)
            == e.(content := u, down := multiset{Msg(0, u)}, publishing := multiset{Msg(0, u)})
  {
    var s := e.(content := u, casting := multiset{Msg(0, u)});
    assert RoomOf(s, 0) == RoomOf(e, 0);
    assert (set c | c in {0} :: Msg(c, u)) == {Msg(0, u)};
  }

  lemma Publishes(e: State, u: Doc)
    requires Ready(e, u)
    ensures var s := e.(content := u, down := multiset{Msg(0, u)}, publishing := multiset{Msg(0, u)});
            Apply(s, Publish(Msg(0, u)), PAIR)
            == e.(content := u, down := multiset{Msg(0, u)}, relays := multiset{Relay(0, 0, u)})
  {
    assert (set p | p in {0} :: Relay(p, 0, u)) == {Relay(0, 0, u)};
  }

  /** The update of client 0 is accepted, flushed and committed. */
  lemma CommittedAfter(before: seq<Action>, e: State, u: Doc) returns (actions: seq<Action>)
    requires Ready(e, u) && Run(before, PAIR) == e.(up := multiset{Msg(0, u)}) && AlwaysRecent(before, PAIR)
    ensures Run(actions, PAIR) == e.(content := u, casting := multiset{Msg(0, u)}) && AlwaysRecent(actions, PAIR)
  {
    actions := Then(before, Accept(Msg(0, u)));
    Accepts(e, u);
    actions := Then(actions, Flush(0));
    Flushes(e, u);
    actions := Then(actions, Commit(Msg(0, u), {}));
    Commits(e, u);
  }

  lemma Delivers(u: Doc)
    ensures var s := Edited(u).(content := u, down := multiset{Msg(0, u)}, relays := multiset{Relay(0, 0, u)});
            Apply(s, Deliver(Relay(0, 0, u)), PAIR) == Edited(u).(content := u, down := multiset{Msg(0, u)})
  {
  }

  lemma Receives(u: Doc)
    ensures Apply(Edited(u).(content := u, down := multiset{Msg(0, u)}), Receive(Msg(0, u)), PAIR)
            == Edited(u).(content := u)
  {
    assert u - u == {};
  }

  /** Client 0 joins on process 0, makes `u`, and everything settles. */
  lemma SettledRun(u: Doc) returns (actions: seq<Action>)
    requires u != {}
    ensures Run(actions, PAIR) == Edited(u).(content := u) && AlwaysRecent(actions, PAIR)
  {
    assert Ready(Edited(u), u);
    actions := FirstRun();
    actions := Then(actions, Edit(0, u));
    EditIsEmitted(First(), u);
    actions := CommittedAfter(actions, Edited(u), u);
    actions := Then(actions, Cast(Msg(0, u)));
    Casts(Edited(u), u);
    actions := Then(actions, Publish(Msg(0, u)));
    Publishes(Edited(u), u);
    actions := Then(actions, Deliver(Relay(0, 0, u)));
    Delivers(u);
    actions := Then(actions, Receive(Msg(0, u)));
    Receives(u);
  }

  // ---------- The caches of the two processes ----------

  const NEW_DB := DocumentStore.Db(Some(0), None, [], [])
  const EMPTY := Cluster.State(0, NEW_DB, None, map[], [Cluster.Version(0, DocumentStore.StoredView(NEW_DB))], None)

  /** A read on process 1 fills its memory; then process 0 stores `u`. */
  lemma StaleAnswer(u: Doc, cfg: DocumentStore.Config)
    ensures var calls := [Cluster.Read(1, true), Cluster.Write(0, u, true)];
            var t := Cluster.Run(EMPTY, calls, cfg);
            && Cluster.Start(EMPTY) && DocumentStore.Loaded(t.db) == u
            && Cluster.Answer(t, 1) == Ok(DocumentStore.View({}))
  {
    var read := [Cluster.Read(1, true)];
    Cluster.RunSnoc(EMPTY, [], Cluster.Read(1, true), cfg);
    assert [] + read == read;
    Cluster.RunSnoc(EMPTY, read, Cluster.Write(0, u, true), cfg);
    assert read + [Cluster.Write(0, u, true)] == [Cluster.Read(1, true), Cluster.Write(0, u, true)];
    assert {} + u == u;
  }

  // ---------- The join ----------

  /** Client 1 has joined on process 1, and its initial state is on its way. */
  ghost function Joined(u: Doc): State {
    Edited(u).(content := u, room := map[0 := 0, 1 := 1], inited := {0, 1}, down := multiset{Msg(1, {})})
  }

  lemma StaleJoinIs(u: Doc)
    ensures Apply(Apply(Edited(u).(content := u), Enter(1, 1), PAIR), Init(1, {}), PAIR) == Joined(u)
  {
    var s := Apply(Edited(u).(content := u), Enter(1, 1), PAIR);
    assert s == Edited(u).(content := u, room := map[0 := 0, 1 := 1]);
  }

  lemma JoinedIsLeftBehind(u: Doc, x: Item)
    requires x in u && Known(Joined(u), PAIR)
    ensures LeftBehind(Joined(u), PAIR, 1, x)
  {
    var s := Joined(u);
    assert !Reaches(s, 1, x);
    assert x in AtRest(s, PAIR, 1);
  }

  /**
   Up to the join every initial state and every commit is recent, and everything has settled. Client 1 then joins
   on process 1, which answers from a copy it read before `u` was stored. Whatever follows, client 1 gets an
   operation of `u` only by fetching it.
  */
  lemma StaleJoinDiverges(u: Doc, cfg: DocumentStore.Config) returns (actions: seq<Action>)
    requires u != {}
    ensures var t := Cluster.Run(EMPTY, [Cluster.Read(1, true), Cluster.Write(0, u, true)], cfg);
            var s, answer := Run(actions, PAIR), Cluster.Answer(t, 1);
            && AlwaysRecent(actions, PAIR) && Quiet(s) && s.content == s.edits == DocumentStore.Loaded(t.db) == u
            && s.room == map[0 := 0] && s.inited == {0} && s.docs == map[0 := u]
            && answer.Ok?
            && var joined := Apply(Apply(s, Enter(1, 1), PAIR), Init(1, answer.value.update), PAIR);
               && joined.room == map[0 := 0, 1 := 1] && joined.inited == {0, 1}
               && OnlyByFetch(joined, PAIR, 1, u)
  {
    StaleAnswer(u, cfg);
    actions := SettledRun(u);
    StaleJoinIs(u);
    RunIsKnown(actions, PAIR);
    StepKeepsKnown(Run(actions, PAIR), Enter(1, 1), PAIR);
    StepKeepsKnown(Apply(Run(actions, PAIR), Enter(1, 1), PAIR), Init(1, {}), PAIR);
    forall x | x in u ensures LeftBehind(Joined(u), PAIR, 1, x) {
      JoinedIsLeftBehind(u, x);
    }
    LeftBehindMeansOnlyByFetch(Joined(u), PAIR, 1, u);
  }

  // ---------- A late subscription ----------

  /** Both clients have joined and are up to date; process 1 has not subscribed. */
  ghost function Both(): State {
    Start(PAIR).(room := map[0 := 0, 1 := 1], inited := {0, 1}, subs := {0})
  }

  /** Client 0 has made `u` then. */
  ghost function BothEdited(u: Doc): State {
    Both().(docs := map[0 := u], edits := u, emits := 1)
  }

  /** Process 0 has committed and emitted `u`, and is about to publish it. */
  lemma EmittedRun(u: Doc) returns (actions: seq<Action>)
    requires u != {}
    ensures AlwaysRecent(actions, PAIR)
    ensures Run(actions, PAIR)
            == BothEdited(u).(content := u, down := multiset{Msg(0, u)}, publishing := multiset{Msg(0, u)})
  {
    var before := FirstRun();
    before := JoinedAfter(before, 1);
    assert Run(before, PAIR) == Both();
    before := Then(before, Edit(0, u));
    EditIsEmitted(Both(), u);
    assert RoomOf(BothEdited(u), 0) == {0};
    actions := CommittedAfter(before, BothEdited(u), u);
    actions := Then(actions, Cast(Msg(0, u)));
    Casts(BothEdited(u), u);
  }

  lemma DeafIsLeftBehind(u: Doc, x: Item)
    requires x in u
    ensures var s := BothEdited(u).(content := u, down := multiset{Msg(0, u)}, relays := multiset{Relay(0, 0, u)});
            Known(s, PAIR) ==> LeftBehind(s, PAIR, 1, x)
  {
    var s := BothEdited(u).(content := u, down := multiset{Msg(0, u)}, relays := multiset{Relay(0, 0, u)});
    assert !Reaches(s, 1, x);
    assert Known(s, PAIR) ==> x in AtRest(s, PAIR, 1);
  }

  /**
   Every initial state and every commit is recent, but process 1, where client 1 has joined, has not subscribed
   when process 0 publishes `u`. Whatever follows, its subscription included, client 1 gets an operation of `u`
   only by fetching it.
  */
  lemma LateSubscriptionDiverges(u: Doc) returns (actions: seq<Action>)
    requires u != {}
    ensures AlwaysRecent(actions, PAIR)
    ensures var s := Run(actions, PAIR);
            && s.room == map[0 := 0, 1 := 1] && s.inited == {0, 1} && s.subs == {0}
            && s.content == s.edits == u && s.docs == map[0 := u]
            && s.publishing == multiset{Msg(0, u)}
    ensures OnlyByFetch(Apply(Run(actions, PAIR), Publish(Msg(0, u)), PAIR), PAIR, 1, u)
  {
    actions := EmittedRun(u);
    var t := Apply(Run(actions, PAIR), Publish(Msg(0, u)), PAIR);
    assert RoomOf(BothEdited(u), 0) == {0};
    Publishes(BothEdited(u), u);
    RunIsKnown(actions, PAIR);
    StepKeepsKnown(Run(actions, PAIR), Publish(Msg(0, u)), PAIR);
    forall x | x in u ensures LeftBehind(t, PAIR, 1, x) {
      DeafIsLeftBehind(u, x);
    }
    LeftBehindMeansOnlyByFetch(t, PAIR, 1, u);
  }
}
