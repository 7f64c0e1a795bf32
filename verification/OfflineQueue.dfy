/** The per-user offline queue of the gateway: a capped Redis list, pushed on the left and popped on the right. */
module OfflineQueue {
  import opened Common

  const CAP := 1000
  const TTL_MS := 86_400_000

  /** The list, newest event first; an expired list reads as empty. */
  datatype State<T> = State(list: seq<T>, expiresAt: int)

  function Live<T>(q: State<T>, now: int): seq<T> {
    if now <= q.expiresAt then q.list else []
  }

  /** `LPUSH`, `LTRIM 0 999`, `EXPIRE`. */
  function Pushed<T>(q: State<T>, now: int, e: T): State<T> {
    var l := [e] + Live(q, now);
    State(if |l| > CAP then l[..CAP] else l, now + TTL_MS)
  }

  function Last<T>(s: seq<T>, n: nat): seq<T> {
    if |s| <= n then s else s[|s| - n..]
  }

  class Queue<T> {
    var list: seq<T>
    var expiresAt: int

    ghost predicate Valid()
      reads this
    {
      |list| <= CAP
    }

    function Value(): State<T>
      reads this
    {
      State(list, expiresAt)
    }

    constructor ()
      ensures Valid() && list == []
    {
      list, expiresAt := [], 0;
    }

    method Push(now: int, e: T)
      requires Valid()
      modifies this
      ensures Valid() && Value() == Pushed(old(Value()), now, e)
    {
      list := [e] + if now <= expiresAt then list else [];
      if |list| > CAP {
        list := list[..CAP];
      }
      expiresAt := now + TTL_MS;
    }

    /** At most 1000 pops from the right; the list never holds more. */
    method Flush(now: int) returns (emitted: seq<T>)
      requires Valid()
      modifies this
      ensures Valid() && list == []
      ensures emitted == Reversed(old(Live(Value(), now)))
    {
      emitted := [];
      if now > expiresAt {
        list := [];
      }
      ghost var all := list;
      var i := 0;
      while i < CAP && list != []
        invariant 0 <= i <= CAP && |list| <= CAP - i
        invariant |list| <= |all| && list == all[..|list|]
        invariant emitted == Reversed(all[|list|..])
      {
        var e := list[|list| - 1];
        emitted := emitted + [e];
        list := list[..|list| - 1];
        assert all[|list|..][0] == e && all[|list|..][1..] == all[|list| + 1..];
        i := i + 1;
      }
      assert all[0..] == all;
    }
  }

  // ---------- Runs ----------

  datatype Call<T> = Push(at: int, event: T) | Flush(at: int)

  ghost function Run<T>(cs: seq<Call<T>>): State<T> {
    if cs == [] then State([], 0) else
      var q, c := Run(cs[..|cs| - 1]), cs[|cs| - 1];
      if c.Push? then Pushed(q, c.at, c.event) else State([], q.expiresAt)
  }

  /** When the latest push happened. */
  ghost function LastPush<T>(cs: seq<Call<T>>): int {
    if cs == [] then -TTL_MS else
      if cs[|cs| - 1].Push? then cs[|cs| - 1].at else LastPush(cs[..|cs| - 1])
  }

  /** The events pushed since the last flush, and since the last pause of more than a day. */
  ghost function Backlog<T>(cs: seq<Call<T>>): seq<T> {
    if cs == [] then [] else
      var c, init := cs[|cs| - 1], cs[..|cs| - 1];
      if c.Flush? then []
      else if c.at - LastPush(init) > TTL_MS then [c.event]
      else Backlog(init) + [c.event]
  }

  /** In every run the list is the most recent part of the backlog, newest first. */
  lemma {:induction false} ListIsBacklog<T>(cs: seq<Call<T>>)
    ensures Run(cs).list == Reversed(Last(Backlog(cs), CAP)) && Run(cs).expiresAt == LastPush(cs) + TTL_MS
  {
    if cs != [] {
      var init, c := cs[..|cs| - 1], cs[|cs| - 1];
      ListIsBacklog(init);
      if c.Push? {
        var kept := if c.at - LastPush(init) > TTL_MS then [] else Backlog(init);
        assert Live(Run(init), c.at) == Reversed(Last(kept, CAP));
        PushedList(kept, c.event);
        assert Backlog(cs) == kept + [c.event];
        assert Run(cs) == Pushed(Run(init), c.at, c.event);
      }
    }
  }

  /** Capping after every push is the same as capping at the end. */
  lemma PushedList<T>(kept: seq<T>, e: T)
    ensures var l := [e] + Reversed(Last(kept, CAP));
            (if |l| > CAP then l[..CAP] else l) == Reversed(Last(kept + [e], CAP))
  {
    var l, k := [e] + Reversed(Last(kept, CAP)), Last(kept, CAP);
    ReversedTwice(k);
    ReversedConcat(k, [e]);
    assert Reversed([e]) == [e];
    if |kept| < CAP {
      assert Last(kept + [e], CAP) == k + [e];
    } else {
      assert Last(kept + [e], CAP) == k[1..] + [e];
      assert k + [e] == [k[0]] + (k[1..] + [e]);
      ReversedConcat([k[0]], k[1..] + [e]);
      assert Reversed([k[0]]) == [k[0]];
      assert Reversed(k[1..] + [e]) == l[..CAP] by {
        ReversedTwice(k[1..] + [e]);
      }
    }
  }

  /** A flush emits exactly the last 1000 events of the backlog, in arrival order, and leaves nothing. */
  lemma FlushEmitsBacklog<T>(cs: seq<Call<T>>, now: int)
    requires now <= LastPush(cs) + TTL_MS
    ensures Reversed(Live(Run(cs), now)) == Last(Backlog(cs), CAP)
    ensures Run(cs + [Flush(now)]).list == []
  {
    ListIsBacklog(cs);
    ReversedTwice(Last(Backlog(cs), CAP));
    assert (cs + [Flush(now)])[..|cs|] == cs;
  }

  ghost function Emitted<T>(cs: seq<Call<T>>): seq<T> {
    if cs == [] then [] else
      var init, c := cs[..|cs| - 1], cs[|cs| - 1];
      Emitted(init) + if c.Flush? then Reversed(Live(Run(init), c.at)) else []
  }

  ghost function AllPushed<T>(cs: seq<Call<T>>): seq<T> {
    if cs == [] then [] else
      AllPushed(cs[..|cs| - 1]) + if cs[|cs| - 1].Push? then [cs[|cs| - 1].event] else []
  }

  /** No push found the queue full, and no call came after a pause of more than a day with events waiting. */
  ghost predicate Unhurried<T>(cs: seq<Call<T>>) {
    cs == [] || (
      var init, c := cs[..|cs| - 1], cs[|cs| - 1];
      && Unhurried(init)
      && (Backlog(init) != [] ==> c.at - LastPush(init) <= TTL_MS && (c.Push? ==> |Backlog(init)| < CAP)))
  }

  lemma {:induction false} WithinCap<T>(cs: seq<Call<T>>)
    requires Unhurried(cs)
    ensures |Backlog(cs)| <= CAP
  {
    if cs != [] {
      WithinCap(cs[..|cs| - 1]);
    }
  }

  /** What was emitted and what is queued: never more than was pushed, and less once a call was hurried. */
  lemma {:induction false} NothingAdded<T>(cs: seq<Call<T>>)
    ensures |Emitted(cs)| + |Run(cs).list| <= |AllPushed(cs)|
    ensures !Unhurried(cs) ==> |Emitted(cs)| + |Run(cs).list| < |AllPushed(cs)|
  {
    if cs != [] {
      var init, c := cs[..|cs| - 1], cs[|cs| - 1];
      NothingAdded(init);
      ListLength(init);
      ReversedTwice(Live(Run(init), c.at));
      assert Run(cs) == if c.Push? then Pushed(Run(init), c.at, c.event) else State([], Run(init).expiresAt);
    }
  }

  lemma ListLength<T>(cs: seq<Call<T>>)
    ensures |Run(cs).list| == (if |Backlog(cs)| <= CAP then |Backlog(cs)| else CAP)
    ensures Run(cs).expiresAt == LastPush(cs) + TTL_MS
  {
    ListIsBacklog(cs);
    ReversedTwice(Last(Backlog(cs), CAP));
  }

  lemma {:induction false} UnhurriedKeepsAll<T>(cs: seq<Call<T>>)
    requires Unhurried(cs)
    ensures Emitted(cs) + Backlog(cs) == AllPushed(cs)
  {
    if cs != [] {
      var init, c := cs[..|cs| - 1], cs[|cs| - 1];
      UnhurriedKeepsAll(init);
      ListIsBacklog(init);
      WithinCap(init);
      if c.Flush? {
        ReversedTwice(Backlog(init));
      } else {
        assert Backlog(cs) == Backlog(init) + [c.event];
        assert Emitted(init) + [] == Emitted(init);
        assert Emitted(init) + (Backlog(init) + [c.event]) == (Emitted(init) + Backlog(init)) + [c.event];
      }
    }
  }

  /**
   Over a run every event is emitted exactly once and in order, or still in the list, if and only if no push
   found the queue full and no call came after a pause of more than a day with events waiting.
  */
  lemma DeliveredOnceInOrderIff<T>(cs: seq<Call<T>>)
    ensures Emitted(cs) + Reversed(Run(cs).list) == AllPushed(cs) <==> Unhurried(cs)
  {
    NothingAdded(cs);
    ListIsBacklog(cs);
    ReversedTwice(Last(Backlog(cs), CAP));
    ReversedTwice(Run(cs).list);
    if Unhurried(cs) {
      WithinCap(cs);
      UnhurriedKeepsAll(cs);
    } else {
      assert |Emitted(cs) + Reversed(Run(cs).list)| < |AllPushed(cs)|;
    }
  }
}
