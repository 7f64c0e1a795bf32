/**
 The paged replay loop shared by the snapshot job and by `validateAndRepair`: it reads the log a
 page at a time and moves its cursor only when an update could be decoded.
*/
module Replay {
  import opened Yjs
  import opened UpdateLog

  /** The loop's variables between two pages. */
  datatype Loop = Running(cursor: int, doc: Doc) | Done(cursor: int, doc: Doc)

  /** The inner `for` loop over one page. */
  function Replayed(page: seq<LogEntry>, cursor: int, doc: Doc): (int, Doc) {
    if page == [] then (cursor, doc)
    else if page[0].update.Gzip? then Replayed(page[1..], page[0].seqNo, doc + page[0].update.doc)
    else Replayed(page[1..], cursor, doc)
  }

  /** One turn of the outer `while (true)` loop. */
  function Turn(es: seq<LogEntry>, size: nat, cursor: int, doc: Doc): Loop {
    var page := Take(After(es, cursor), size);
    if page == [] then Done(cursor, doc)
    else
      var (c, d) := Replayed(page, cursor, doc);
      if |page| < size then Done(c, d) else Running(c, d)
  }

  function Turns(es: seq<LogEntry>, size: nat, n: nat): Loop {
    if n == 0 then Running(0, {}) else
      match Turns(es, size, n - 1)
      case Running(cursor, doc) => Turn(es, size, cursor, doc)
      case done => done
  }

  /** A full page of consecutive entries, none of which can be decoded. */
  ghost predicate DeadPage(es: seq<LogEntry>, i: nat, size: nat) {
    i + size <= |es| && forall j :: i <= j < i + size ==> es[j].update.Garbled?
  }

  ghost predicate NoDeadPage(es: seq<LogEntry>, size: nat) {
    forall i: nat :: !DeadPage(es, i, size)
  }

  /** The cursor when the entries before position `p` have been dealt with. */
  ghost function CursorAt(es: seq<LogEntry>, p: nat): int
    requires p <= |es|
  {
    if p == 0 then 0 else es[p - 1].seqNo
  }

  /** The `for` loop over one page. */
  method ReplayPage(page: seq<LogEntry>, from: int, onto: Doc) returns (cursor: int, doc: Doc)
    ensures (cursor, doc) == Replayed(page, from, onto)
  {
    cursor, doc := from, onto;
    var i := 0;
    while i < |page|
      invariant 0 <= i <= |page|
      invariant Replayed(page[i..], cursor, doc) == Replayed(page, from, onto)
    {
      var u := page[i];
      if u.update.Gzip? {
        doc := doc + u.update.doc;
        cursor := u.seqNo;
      }
      i := i + 1;
    }
  }

  method ReplayLog(updates: DocumentUpdateRepository, size: nat) returns (doc: Doc, cursor: int)
    requires updates.Valid() && 1 <= size
    requires NoDeadPage(After(updates.entries, 0), size)
    ensures doc == Decoded(After(updates.entries, 0))
  {
    doc, cursor := {}, 0;
    ghost var es := After(updates.entries, 0);
    ghost var p := 0;
    while true
      invariant 0 <= p <= |es| && cursor == CursorAt(es, p) && doc == Decoded(es[..p])
      decreases |es| - p
    {
      var page := updates.ListAsc(cursor, size);
      ghost var q := PageAt(updates.entries, p, size);
      if page == [] {
        break;
      }
      cursor, doc := ReplayPage(page, cursor, doc);
      p := q;
      if |page| < size {
        break;
      }
    }
  }

  /** The position just after the last decodable entry of `es[p..p + n]`, or `p`. */
  ghost function LastGood(es: seq<LogEntry>, p: nat, n: nat): (q: nat)
    requires p + n <= |es|
    ensures p <= q <= p + n && (q == p || es[q - 1].update.Gzip?)
    ensures forall j :: q <= j < p + n ==> es[j].update.Garbled?
  {
    if n == 0 then p else if es[p + n - 1].update.Gzip? then p + n else LastGood(es, p, n - 1)
  }

  /** The undecodable tail of a page adds nothing. */
  lemma {:induction false} LastGoodHasAll(es: seq<LogEntry>, p: nat, n: nat)
    requires p + n <= |es|
    ensures Decoded(es[..LastGood(es, p, n)]) == Decoded(es[..p + n])
  {
    if n > 0 && es[p + n - 1].update.Garbled? {
      LastGoodHasAll(es, p, n - 1);
      assert es[..p + n][..p + n - 1] == es[..p + n - 1];
    }
  }

  /** A page leaves the cursor at its last decodable entry and joins everything it could decode. */
  lemma {:induction false} ReplayedPage(es: seq<LogEntry>, p: nat, n: nat)
    requires p + n <= |es|
    ensures Replayed(es[p..p + n], CursorAt(es, p), Decoded(es[..p]))
            == (CursorAt(es, LastGood(es, p, n)), Decoded(es[..p + n]))
    decreases n
  {
    if n == 0 {
      assert es[p..p + n] == [];
    } else {
      var e, page := es[p + n - 1], es[p..p + n - 1];
      assert es[p..p + n] == page + [e];
      ReplayedPage(es, p, n - 1);
      ReplayedSnoc(page, e, CursorAt(es, p), Decoded(es[..p]));
      assert es[..p + n] == es[..p + n - 1] + [e];
      DecodedSnoc(es[..p + n - 1], e);
    }
  }

  lemma {:induction false} ReplayedSnoc(page: seq<LogEntry>, e: LogEntry, cursor: int, doc: Doc)
    ensures Replayed(page + [e], cursor, doc) ==
            var r := Replayed(page, cursor, doc);
            if e.update.Gzip? then (e.seqNo, r.1 + e.update.doc) else r
    decreases |page|
  {
    if page == [] {
      assert page + [e] == [e];
      assert [e][1..] == [];
    } else {
      assert (page + [e])[1..] == page[1..] + [e];
      if page[0].update.Gzip? {
        ReplayedSnoc(page[1..], e, page[0].seqNo, doc + page[0].update.doc);
      } else {
        ReplayedSnoc(page[1..], e, cursor, doc);
      }
    }
  }

  /** The cursor of position `p` selects what follows position `p`. */
  lemma CursorSelects(entries: seq<LogEntry>, p: nat)
    requires Ascending(entries) && p <= |After(entries, 0)|
    ensures var es := After(entries, 0); After(entries, CursorAt(es, p)) == es[p..]
  {
    var es, r := After(entries, 0), Rank(entries, 0);
    if p > 0 {
      assert es[p - 1] == entries[r + p - 1];
      RankIs(entries, es[p - 1].seqNo, r + p);
    }
  }

  ghost function PageLength(es: seq<LogEntry>, p: nat, size: nat): nat
    requires p <= |es|
  {
    if |es| - p <= size then |es| - p else size
  }

  /** Where one page takes the loop from position `p`, and what it has joined by then. */
  lemma PageAt(entries: seq<LogEntry>, p: nat, size: nat) returns (q: nat)
    requires Ascending(entries) && 1 <= size && p <= |After(entries, 0)|
    ensures var es := After(entries, 0);
            var page, n := Take(After(entries, CursorAt(es, p)), size), PageLength(es, p, size);
            && |page| == n && q == LastGood(es, p, n)
            && Replayed(page, CursorAt(es, p), Decoded(es[..p])) == (CursorAt(es, q), Decoded(es[..q]))
            && (n < size ==> Decoded(es[..q]) == Decoded(es))
            && (NoDeadPage(es, size) && n == size ==> p < q)
  {
    var es := After(entries, 0);
    var n := PageLength(es, p, size);
    CursorSelects(entries, p);
    assert Take(es[p..], size) == es[p..p + n];
    ReplayedPage(es, p, n);
    LastGoodHasAll(es, p, n);
    q := LastGood(es, p, n);
    if n < size {
      assert es[..p + n] == es;
    }
    assert n == size && q == p ==> DeadPage(es, p, size);
  }

  /** One turn from position `p`: the loop ends with everything joined, or moves to `q`. */
  lemma TurnAt(entries: seq<LogEntry>, p: nat, size: nat) returns (q: nat)
    requires Ascending(entries) && 1 <= size && p <= |After(entries, 0)|
    ensures var es := After(entries, 0);
            var t, n := Turn(entries, size, CursorAt(es, p), Decoded(es[..p])), PageLength(es, p, size);
            && q == LastGood(es, p, n)
            && (n < size ==> t.Done? && t.doc == Decoded(es))
            && (n == size ==> t == Running(CursorAt(es, q), Decoded(es[..q])))
            && (NoDeadPage(es, size) && n == size ==> p < q)
  {
    var es := After(entries, 0);
    q := PageAt(entries, p, size);
    assert p == |es| ==> es[..p] == es;
  }

  /** The loop is at position `p` of the log. */
  ghost predicate Reached(t: Loop, es: seq<LogEntry>, p: nat) {
    t.Running? && p <= |es| && t.cursor == CursorAt(es, p) && t.doc == Decoded(es[..p])
  }

  /** After any number of turns the loop has finished with the join of all decodable entries, or has a position. */
  lemma {:induction false} AfterTurns(entries: seq<LogEntry>, size: nat, n: nat) returns (p: nat)
    requires Ascending(entries) && 1 <= size
    ensures var es, t := After(entries, 0), Turns(entries, size, n);
            if t.Done? then t.doc == Decoded(es)
            else Reached(t, es, p) && (NoDeadPage(es, size) ==> n <= p)
  {
    p := 0;
    if n > 0 {
      var es := After(entries, 0);
      p := AfterTurns(entries, size, n - 1);
      if Turns(entries, size, n - 1).Running? {
        var was := p;
        p := TurnAt(entries, was, size);
      }
    }
  }

  lemma WallHolds(entries: seq<LogEntry>, p: nat, size: nat, wall: nat) returns (q: nat)
    requires Ascending(entries) && 1 <= size && DeadPage(After(entries, 0), wall, size) && p <= wall
    ensures q <= wall && Reached(Turn(entries, size, CursorAt(After(entries, 0), p), Decoded(After(entries, 0)[..p])),
                                 After(entries, 0), q)
  {
    q := TurnAt(entries, p, size);
  }

  /** A full page of undecodable entries is a wall: the cursor never gets past its start. */
  lemma {:induction false} DeadPageIsAWall(entries: seq<LogEntry>, size: nat, n: nat, wall: nat) returns (p: nat)
    requires Ascending(entries) && 1 <= size && DeadPage(After(entries, 0), wall, size)
    ensures p <= wall && Reached(Turns(entries, size, n), After(entries, 0), p)
  {
    p := 0;
    if n > 0 {
      p := DeadPageIsAWall(entries, size, n - 1, wall);
      p := WallHolds(entries, p, size, wall);
    }
  }

  /** Whenever the loop ends it has computed the join of all decodable entries above number 0. */
  lemma ReplayIsOneFold(entries: seq<LogEntry>, size: nat, n: nat)
    requires Ascending(entries) && 1 <= size && Turns(entries, size, n).Done?
    ensures Turns(entries, size, n).doc == Decoded(After(entries, 0))
  {
    var _ := AfterTurns(entries, size, n);
  }

  /** The loop ends exactly when every full page of consecutive entries holds a decodable update. */
  lemma ReplayEndsIff(entries: seq<LogEntry>, size: nat)
    requires Ascending(entries) && 1 <= size
    ensures (exists n: nat :: Turns(entries, size, n).Done?) <==> NoDeadPage(After(entries, 0), size)
  {
    var es := After(entries, 0);
    if NoDeadPage(es, size) {
      var p := AfterTurns(entries, size, |es| + 1);
      assert Turns(entries, size, |es| + 1).Done?;
    } else {
      var wall: nat :| DeadPage(es, wall, size);
      forall n: nat ensures Turns(entries, size, n).Running? {
        var _ := DeadPageIsAWall(entries, size, n, wall);
      }
    }
  }

  // ---------- Pages read at different times ----------

  ghost predicate AllDecodable(es: seq<LogEntry>) {
    forall i :: 0 <= i < |es| ==> es[i].update.Gzip?
  }

  /** Every entry numbered up to `cursor` has been joined into `doc`. */
  ghost predicate HasRead(es: seq<LogEntry>, cursor: int, doc: Doc) {
    forall i :: 0 <= i < |es| && es[i].seqNo <= cursor && es[i].update.Gzip? ==> es[i].update.doc <= doc
  }

  lemma {:induction false} PageIsJoined(page: seq<LogEntry>, cursor: int, doc: Doc)
    requires AllDecodable(page)
    ensures var (c, d) := Replayed(page, cursor, doc);
            && c == (if page == [] then cursor else page[|page| - 1].seqNo)
            && doc <= d && d == doc + Decoded(page)
    decreases |page|
  {
    if page != [] {
      var rest := page[1..];
      PageIsJoined(rest, page[0].seqNo, doc + page[0].update.doc);
      assert page == [page[0]] + rest;
      DecodedConcat([page[0]], rest);
      DecodedSnoc([], page[0]);
      assert [] + [page[0]] == [page[0]];
    }
  }

  /** One page over a log that may have changed since the page before. */
  lemma PageReads(es: seq<LogEntry>, r: nat, n: nat, cursor: int, doc: Doc)
    requires Ascending(es) && HasRead(es, cursor, doc) && 1 <= n && r + n <= |es|
    requires forall i :: 0 <= i < r ==> es[i].seqNo <= cursor
    ensures HasRead(es, es[r + n - 1].seqNo, doc + Decoded(es[r..r + n]))
  {
    var page := es[r..r + n];
    forall i | 0 <= i < |es| && es[i].seqNo <= es[r + n - 1].seqNo && es[i].update.Gzip?
      ensures es[i].update.doc <= doc + Decoded(page)
    {
      if i >= r {
        assert page[i - r] == es[i];
        DecodedHas(page, i - r);
      }
    }
  }

  /** What the page after `cursor` adds, and what it leaves for later. */
  lemma PageDecodes(es: seq<LogEntry>, size: nat, cursor: int, doc: Doc)
    requires AllDecodable(es) && HasRead(es, cursor, doc)
    ensures var page := Take(After(es, cursor), size);
            var d := Replayed(page, cursor, doc).1;
            && doc <= d <= doc + Decoded(es) && d == doc + Decoded(page)
            && (|page| < size ==> Decoded(es) <= d)
  {
    var rest := After(es, cursor);
    var page := Take(rest, size);
    DecodedSplits(es, cursor);
    UpToIsRead(es, cursor, doc);
    PageIsJoined(page, cursor, doc);
    assert rest == page + rest[|page|..];
    DecodedConcat(page, rest[|page|..]);
    assert |page| < size ==> page == rest;
  }

  /** After a full page everything up to its last entry has been joined. */
  lemma FullPageReads(es: seq<LogEntry>, size: nat, cursor: int, doc: Doc)
    requires Ascending(es) && HasRead(es, cursor, doc) && 1 <= size <= |After(es, cursor)|
    ensures var page := After(es, cursor)[..size];
            HasRead(es, page[size - 1].seqNo, doc + Decoded(page)) && page[size - 1].seqNo <= Latest(es)
  {
    var r := Rank(es, cursor);
    RankBounds(es, cursor);
    assert After(es, cursor)[..size] == es[r..r + size];
    PageReads(es, r, size, cursor, doc);
  }

  /** One turn over such a log joins everything up to its new cursor, or everything. */
  lemma TurnReads(es: seq<LogEntry>, size: nat, cursor: int, doc: Doc)
    requires Ascending(es) && AllDecodable(es) && HasRead(es, cursor, doc) && 1 <= size
    ensures var t := Turn(es, size, cursor, doc);
            && doc <= t.doc <= doc + Decoded(es)
            && (t.Done? ==> Decoded(es) <= t.doc)
            && (t.Running? ==> HasRead(es, t.cursor, t.doc) && t.cursor <= Latest(es))
  {
    var page := Take(After(es, cursor), size);
    PageDecodes(es, size, cursor, doc);
    PageIsJoined(page, cursor, doc);
    if |page| == size {
      FullPageReads(es, size, cursor, doc);
      assert page == After(es, cursor)[..size];
    }
  }

  lemma {:induction false} DecodedHas(es: seq<LogEntry>, i: nat)
    requires i < |es| && es[i].update.Gzip?
    ensures es[i].update.doc <= Decoded(es)
  {
    if i < |es| - 1 {
      DecodedHas(es[..|es| - 1], i);
    }
  }

  lemma {:induction false} DecodedWithin(es: seq<LogEntry>, doc: Doc)
    requires forall i :: 0 <= i < |es| && es[i].update.Gzip? ==> es[i].update.doc <= doc
    ensures Decoded(es) <= doc
  {
    if es != [] {
      DecodedWithin(es[..|es| - 1], doc);
    }
  }

  lemma UpToIsRead(es: seq<LogEntry>, cursor: int, doc: Doc)
    requires HasRead(es, cursor, doc)
    ensures Decoded(UpTo(es, cursor)) <= doc
  {
    RankBounds(es, cursor);
    DecodedWithin(UpTo(es, cursor), doc);
  }
}
