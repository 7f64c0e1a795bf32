/**
 The interface of Yjs that the repository relies on.

 A document, and equally an update, is a finite set of items: inserted operations
 `(client, clock)` and deletions of such operations. `Y.applyUpdate` and `Y.mergeUpdates` are
 set union. A state vector gives, for each client, the length of its gap-free prefix.
*/
module Yjs {
  datatype Item = Insert(client: nat, clock: nat) | Delete(client: nat, clock: nat)

  type Doc = set<Item>
  type Vector = map<nat, nat>

  /** `Y.mergeUpdates`: the join of a sequence of updates. */
  function JoinAll(us: seq<Doc>): Doc {
    if us == [] then {} else JoinAll(us[..|us| - 1]) + us[|us| - 1]
  }

  /** The first clock from `n` on that client `c` has not contributed to `d`. */
  function PrefixEnd(d: Doc, c: nat, n: nat): (end: nat)
    ensures n <= end && Insert(c, end) !in d
    ensures forall k :: n <= k < end ==> Insert(c, k) in d
    decreases d
  {
    if Insert(c, n) in d then PrefixEnd(d - {Insert(c, n)}, c, n + 1) else n
  }

  /** `Y.encodeStateVector`. */
  function StateVector(d: Doc): Vector {
    map c | c in (set i | i in d && i.Insert? :: i.client) :: PrefixEnd(d, c, 0)
  }

  function At(v: Vector, c: nat): nat {
    if c in v then v[c] else 0
  }

  /** `Y.encodeStateAsUpdate(d, v)`: the operations at or above `v`, and every deletion. */
  function EncodeSince(d: Doc, v: Vector): Doc {
    set i | i in d && (i.Delete? || At(v, i.client) <= i.clock)
  }

  ghost predicate GapFree(d: Doc) {
    forall c: nat, k: nat, j: nat :: Insert(c, k) in d && j < k ==> Insert(c, j) in d
  }

  /** The insertions of a document, without its deletions. */
  ghost function Inserts(d: Doc): Doc {
    set i | i in d && i.Insert?
  }

  lemma VectorAt(d: Doc, c: nat)
    ensures At(StateVector(d), c) == PrefixEnd(d, c, 0)
  {
    if Insert(c, 0) in d {
      assert Insert(c, 0).client in (set i | i in d && i.Insert? :: i.client);
    }
  }

  /** A diff against my vector gives me exactly my state joined with the served one. */
  lemma DiffCompletes(mine: Doc, served: Doc)
    ensures mine + EncodeSince(served, StateVector(mine)) == mine + served
  {
    forall i | i in served && i.Insert? ensures i in mine + EncodeSince(served, StateVector(mine)) {
      VectorAt(mine, i.client);
    }
  }

  /** The diff repeats no operation I have, whatever is served, exactly when my document has no gap. */
  lemma DiffIsMinimalIffGapFree(mine: Doc)
    ensures GapFree(mine) <==>
            forall served: Doc :: Inserts(EncodeSince(served, StateVector(mine))) !! mine
  {
    if GapFree(mine) {
      forall served: Doc ensures Inserts(EncodeSince(served, StateVector(mine))) !! mine {
        forall i | i in Inserts(EncodeSince(served, StateVector(mine))) ensures i !in mine {
          VectorAt(mine, i.client);
        }
      }
    } else {
      var c: nat, k: nat, j: nat :| Insert(c, k) in mine && j < k && Insert(c, j) !in mine;
      VectorAt(mine, c);
      assert Insert(c, k) in Inserts(EncodeSince(mine, StateVector(mine)));
    }
  }

  /** Applying the patch from snapshot `a` to snapshot `b` yields `b` exactly when `a` is within `b`. */
  lemma PatchReachesTarget(a: Doc, b: Doc)
    ensures a + EncodeSince(b, StateVector(a)) == b <==> a <= b
  {
    DiffCompletes(a, b);
  }

  /** Between gap-free documents the vector determines the insertions. */
  lemma VectorDeterminesInserts(a: Doc, b: Doc)
    requires GapFree(a) && GapFree(b)
    ensures StateVector(a) == StateVector(b) <==> Inserts(a) == Inserts(b)
  {
    if StateVector(a) == StateVector(b) {
      forall i: Item | i.Insert? ensures i in a <==> i in b {
        VectorAt(a, i.client);
        VectorAt(b, i.client);
      }
    }
    if Inserts(a) == Inserts(b) {
      forall i: Item | i.Insert? ensures i in a <==> i in b {
        assert i in a <==> i in Inserts(a);
        assert i in b <==> i in Inserts(b);
      }
      forall c: nat ensures PrefixEnd(a, c, 0) == PrefixEnd(b, c, 0) {
        assert Insert(c, PrefixEnd(a, c, 0)) !in b && Insert(c, PrefixEnd(b, c, 0)) !in a;
      }
      assert (set i | i in a && i.Insert? :: i.client) == (set i | i in b && i.Insert? :: i.client);
    }
  }

  /** Joining distributes over concatenation. */
  lemma {:induction false} JoinAllConcat(us: seq<Doc>, ws: seq<Doc>)
    ensures JoinAll(us + ws) == JoinAll(us) + JoinAll(ws)
    decreases |ws|
  {
    if ws == [] {
      assert us + ws == us;
    } else {
      var init := ws[..|ws| - 1];
      assert (us + ws)[..|us + ws| - 1] == us + init;
      JoinAllConcat(us, init);
    }
  }

  lemma JoinAllOne(u: Doc)
    ensures JoinAll([u]) == u
  {
    assert [u][..0] == [];
  }
}
