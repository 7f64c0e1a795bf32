/**
 The client's `SimpleYProvider`: what happens to each change of the local document, and the REST
 queue with its timer and its overlapping flushes. A flush is split at its `await` on the post.
*/
module Provider {
  import opened Yjs

  /** A `y-update` handed to the socket. */
  datatype Emit = Emit(update: Doc, seqNo: nat)

  /** `posts` are the posts still waiting for their response; `delivered` is what the server has confirmed. */
  datatype State = State(doc: Doc, queue: seq<Doc>, timer: bool, posts: seq<Doc>, delivered: Doc,
                         connected: bool, wsSeq: nat, emitted: seq<Emit>, readOnly: bool)

  const INITIAL := State({}, [], false, [], {}, false, 0, [], false)

  function Enqueued(s: State, u: Doc): State {
    s.(queue := s.queue + [u], timer := true)
  }

  /** Edits, remote updates and loaded states reach the document the same way; the `update` event carries the gain. */
  function Changed(s: State, u: Doc, encodes: bool): State {
    var gain := u - s.doc;
    var t := s.(doc := s.doc + u);
    if gain == {} then s
    else if s.connected && encodes then t.(wsSeq := s.wsSeq + 1, emitted := s.emitted + [Emit(gain, s.wsSeq + 1)])
    else Enqueued(t, gain)
  }

  /** A successful load or resync applies the fetched state, and the editor may write again. */
  function Reloaded(s: State, u: Doc, encodes: bool): State {
    Changed(s, u, encodes).(readOnly := false)
  }

  function FlushBegun(s: State): State {
    if s.queue == [] then s.(timer := false)
    else s.(timer := false, queue := [], posts := s.posts + [JoinAll(s.queue)])
  }

  function Without(posts: seq<Doc>, k: nat): seq<Doc>
    requires k < |posts|
  {
    posts[..k] + posts[k + 1..]
  }

  function PostConfirmed(s: State, k: nat): State
    requires k < |s.posts|
  {
    s.(posts := Without(s.posts, k), delivered := s.delivered + s.posts[k])
  }

  function PostFailed(s: State, k: nat, unauthorized: bool): State
    requires k < |s.posts|
  {
    Enqueued(s, s.posts[k]).(posts := Without(s.posts, k), readOnly := s.readOnly || unauthorized)
  }

  class SimpleYProvider {
    var ydoc: Doc
    var queue: seq<Doc>
    var timer: bool
    var posts: seq<Doc>
    ghost var delivered: Doc
    var connected: bool
    var wsSeq: nat
    var emitted: seq<Emit>
    var readOnly: bool

    ghost function Value(): State
      reads this
    {
      State(ydoc, queue, timer, posts, delivered, connected, wsSeq, emitted, readOnly)
    }

    constructor ()
      ensures Value() == INITIAL
    {
      ydoc, queue, timer, posts, delivered := {}, [], false, [], {};
      connected, wsSeq, emitted, readOnly := false, 0, [], false;
    }

    /** `encodes` is false when the base64 conversion throws, and then the update is queued instead. */
    method ApplyUpdate(u: Doc, encodes: bool)
      modifies this
      ensures Value() == Changed(old(Value()), u, encodes)
    {
      var gain := u - ydoc;
      if gain == {} {
        return;
      }
      ydoc := ydoc + u;
      if connected && encodes {
        wsSeq := wsSeq + 1;
        emitted := emitted + [Emit(gain, wsSeq)];
      } else {
        Enqueue(gain);
      }
    }

    method Enqueue(u: Doc)
      modifies this`queue, this`timer
      ensures Value() == Enqueued(old(Value()), u)
    {
      queue := queue + [u];
      if timer {
        return;
      }
      timer := true;
    }

    method BeginFlush()
      modifies this
      ensures Value() == FlushBegun(old(Value()))
    {
      timer := false;
      if queue == [] {
        return;
      }
      var temp: Doc := {};
      for i := 0 to |queue|
        invariant temp == JoinAll(queue[..i])
      {
        temp := temp + queue[i];
        assert queue[..i + 1][..i] == queue[..i];
      }
      assert queue[..|queue|] == queue;
      queue := [];
      posts := posts + [temp];
    }

    method ConfirmPost(k: nat)
      requires k < |posts|
      modifies this
      ensures Value() == PostConfirmed(old(Value()), k)
    {
      delivered := delivered + posts[k];
      posts := Without(posts, k);
    }

    method FailPost(k: nat, unauthorized: bool)
      requires k < |posts|
      modifies this
      ensures Value() == PostFailed(old(Value()), k, unauthorized)
    {
      Enqueue(posts[k]);
      posts := Without(posts, k);
      if unauthorized {
        readOnly := true;
      }
    }

    method Reload(u: Doc, encodes: bool)
      modifies this
      ensures Value() == Reloaded(old(Value()), u, encodes)
    {
      ApplyUpdate(u, encodes);
      readOnly := false;
    }

    method RestoreQueue(saved: seq<Doc>)
      modifies this`queue
      ensures Value() == old(Value()).(queue := old(queue) + saved)
    {
      for i := 0 to |saved|
        invariant queue == old(queue) + saved[..i]
      {
        queue := queue + [saved[i]];
      }
    }
  }

  // ---------- Runs ----------

  /** Flushes begin on the batch timer, a backoff timer, coming online, or a retry; all act alike. */
  datatype Action =
    | Change(update: Doc, encodes: bool)
    | Reload(update: Doc, encodes: bool)
    | Connect
    | Disconnect
    | Flush
    | Confirm(k: nat)
    | Fail(k: nat, unauthorized: bool)
    | Restore(saved: seq<Doc>)

  function Apply(s: State, a: Action): State {
    match a
    case Change(u, encodes) => Changed(s, u, encodes)
    case Reload(u, encodes) => Reloaded(s, u, encodes)
    case Connect => s.(connected := true)
    case Disconnect => s.(connected := false)
    case Flush => FlushBegun(s)
    case Confirm(k) => if k < |s.posts| then PostConfirmed(s, k) else s
    case Fail(k, unauthorized) => if k < |s.posts| then PostFailed(s, k, unauthorized) else s
    case Restore(saved) => s.(queue := s.queue + saved)
  }

  function Run(actions: seq<Action>): State {
    if actions == [] then INITIAL else Apply(Run(actions[..|actions| - 1]), actions[|actions| - 1])
  }

  /** The change `a` makes to `s` goes to the REST queue. */
  predicate GoesToQueue(s: State, a: Action) {
    (a.Change? || a.Reload?) && a.update - s.doc != {} && !(s.connected && a.encodes)
  }

  /** The join of everything ever enqueued for a change, or restored from an earlier session. */
  ghost function Given(actions: seq<Action>): Doc {
    if actions == [] then {} else
      var init, a := actions[..|actions| - 1], actions[|actions| - 1];
      Given(init) + if GoesToQueue(Run(init), a) then a.update - Run(init).doc
                    else if a.Restore? then JoinAll(a.saved) else {}
  }

  /** Since the last flush began, something was enqueued: by a change or by a failed post. */
  ghost predicate HoldsEnqueued(actions: seq<Action>) {
    if actions == [] then false else
      var init, a := actions[..|actions| - 1], actions[|actions| - 1];
      if a.Flush? then false
      else HoldsEnqueued(init) || GoesToQueue(Run(init), a) || (a.Fail? && a.k < |Run(init).posts|)
  }

  ghost function OnTheWay(s: State): Doc {
    JoinAll(s.queue) + JoinAll(s.posts) + s.delivered
  }

  lemma JoinMiddle(us: seq<Doc>, u: Doc, ws: seq<Doc>)
    ensures JoinAll((us + [u]) + ws) == JoinAll(us + ws) + u
  {
    JoinAllConcat(us + [u], ws);
    JoinAllConcat(us, ws);
    JoinSnoc(us, u);
  }

  lemma JoinWithout(posts: seq<Doc>, k: nat)
    requires k < |posts|
    ensures JoinAll(posts) == JoinAll(Without(posts, k)) + posts[k]
  {
    JoinMiddle(posts[..k], posts[k], posts[k + 1..]);
    assert posts == (posts[..k] + [posts[k]]) + posts[k + 1..];
  }

  lemma JoinSnoc(us: seq<Doc>, u: Doc)
    ensures JoinAll(us + [u]) == JoinAll(us) + u
  {
    assert (us + [u])[..|us|] == us;
  }

  lemma ResponseConserves(s: State, k: nat, unauthorized: bool)
    requires k < |s.posts|
    ensures OnTheWay(PostConfirmed(s, k)) == OnTheWay(s) && OnTheWay(PostFailed(s, k, unauthorized)) == OnTheWay(s)
  {
    JoinWithout(s.posts, k);
    JoinSnoc(s.queue, s.posts[k]);
  }

  lemma FlushConserves(s: State)
    ensures OnTheWay(FlushBegun(s)) == OnTheWay(s)
  {
    JoinSnoc(s.posts, JoinAll(s.queue));
  }

  lemma ChangeConserves(s: State, u: Doc, encodes: bool)
    ensures OnTheWay(Changed(s, u, encodes)) ==
            OnTheWay(s) + if u - s.doc != {} && !(s.connected && encodes) then u - s.doc else {}
  {
    JoinSnoc(s.queue, u - s.doc);
  }

  lemma StepConserves(s: State, a: Action)
    ensures OnTheWay(Apply(s, a)) == OnTheWay(s) +
              if GoesToQueue(s, a) then a.update - s.doc else if a.Restore? then JoinAll(a.saved) else {}
  {
    match a
    case Change(u, encodes) => ChangeConserves(s, u, encodes);
    case Reload(u, encodes) => ChangeConserves(s, u, encodes);
    case Flush => FlushConserves(s);
    case Confirm(k) => if k < |s.posts| { ResponseConserves(s, k, false); }
    case Fail(k, unauthorized) => if k < |s.posts| { ResponseConserves(s, k, unauthorized); }
    case Restore(saved) => JoinAllConcat(s.queue, saved);
    case _ =>
  }

  /** Nothing given to the queue is lost or invented: it is queued, in a post, or delivered. */
  lemma {:induction false} QueueConserves(actions: seq<Action>)
    ensures OnTheWay(Run(actions)) == Given(actions)
  {
    if actions != [] {
      QueueConserves(actions[..|actions| - 1]);
      StepConserves(Run(actions[..|actions| - 1]), actions[|actions| - 1]);
    }
  }

  /** The batch timer is set exactly while the queue holds an enqueued update; a restored one alone does not set it. */
  lemma {:induction false} TimerIffEnqueued(actions: seq<Action>)
    ensures Run(actions).timer <==> HoldsEnqueued(actions)
  {
    if actions != [] {
      TimerIffEnqueued(actions[..|actions| - 1]);
    }
  }

  ghost function Emits(es: seq<Emit>): Doc {
    if es == [] then {} else Emits(es[..|es| - 1]) + es[|es| - 1].update
  }

  /** The local document is covered by what was emitted and by what the queue has in its care. */
  ghost predicate Sent(s: State) {
    && s.doc <= Emits(s.emitted) + OnTheWay(s)
    && s.wsSeq == |s.emitted|
    && forall i :: 0 <= i < |s.emitted| ==> s.emitted[i].seqNo == i + 1 && s.emitted[i].update != {}
  }

  lemma ChangeKeepsSent(s: State, u: Doc, encodes: bool)
    requires Sent(s)
    ensures Sent(Changed(s, u, encodes))
  {
    var t := Changed(s, u, encodes);
    if t.emitted != s.emitted {
      assert t.emitted[..|t.emitted| - 1] == s.emitted;
    } else {
      JoinSnoc(s.queue, u - s.doc);
    }
  }

  /** Every item of the local document was emitted or is in the care of the queue; emits are numbered from 1. */
  lemma {:induction false} EveryChangeIsSent(actions: seq<Action>)
    ensures Sent(Run(actions))
  {
    if actions != [] {
      var s, a := Run(actions[..|actions| - 1]), actions[|actions| - 1];
      EveryChangeIsSent(actions[..|actions| - 1]);
      if a.Change? || a.Reload? {
        ChangeKeepsSent(s, a.update, a.encodes);
      } else {
        StepConserves(s, a);
      }
    }
  }

  /** Since the last load or resync, some post failed because it was unauthorised. */
  ghost predicate WasUnauthorised(actions: seq<Action>) {
    if actions == [] then false else
      var init, a := actions[..|actions| - 1], actions[|actions| - 1];
      if a.Reload? then false
      else WasUnauthorised(init) || (a.Fail? && a.unauthorized && a.k < |Run(init).posts|)
  }

  /** The editor is read-only exactly from an unauthorised post until the next successful load or resync. */
  lemma {:induction false} ReadOnlyIffUnauthorised(actions: seq<Action>)
    ensures Run(actions).readOnly <==> WasUnauthorised(actions)
  {
    if actions != [] {
      ReadOnlyIffUnauthorised(actions[..|actions| - 1]);
    }
  }

  /** What was emitted is part of the document, and no operation was emitted twice. */
  ghost predicate EmittedOnce(s: State) {
    && (forall i :: 0 <= i < |s.emitted| ==> s.emitted[i].update <= s.doc)
    && (forall i, j :: 0 <= i < j < |s.emitted| ==> s.emitted[i].update !! s.emitted[j].update)
  }

  /** In every run each emit carries only what the document just gained, so no operation is sent to the socket twice. */
  lemma {:induction false} NothingIsEmittedTwice(actions: seq<Action>)
    ensures EmittedOnce(Run(actions))
  {
    if actions != [] {
      NothingIsEmittedTwice(actions[..|actions| - 1]);
    }
  }
}
