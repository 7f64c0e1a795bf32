/**
 The append-only update log of one document (`document-update.repo.ts`). The collection has a
 unique index on `seq`; the log is kept in that index's order.
*/
module UpdateLog {
  import opened Yjs

  /** Stored bytes: a gzipped update, or something `gunzipSync` rejects. */
  datatype Blob = Gzip(doc: Doc) | Garbled

  datatype LogEntry = LogEntry(seqNo: int, update: Blob)

  ghost predicate Ascending(es: seq<LogEntry>) {
    forall i, j :: 0 <= i < j < |es| ==> es[i].seqNo < es[j].seqNo
  }

  /** How many leading entries have a sequence number of at most `s`. */
  function Rank(es: seq<LogEntry>, s: int): (n: nat)
    ensures n <= |es|
  {
    if es == [] || s < es[0].seqNo then 0 else 1 + Rank(es[1..], s)
  }

  function UpTo(es: seq<LogEntry>, s: int): seq<LogEntry> {
    es[..Rank(es, s)]
  }

  function After(es: seq<LogEntry>, s: int): seq<LogEntry> {
    es[Rank(es, s)..]
  }

  predicate HasSeq(es: seq<LogEntry>, s: int) {
    exists i :: 0 <= i < |es| && es[i].seqNo == s
  }

  function Inserted(es: seq<LogEntry>, e: LogEntry): seq<LogEntry> {
    UpTo(es, e.seqNo) + [e] + After(es, e.seqNo)
  }

  function Take(es: seq<LogEntry>, limit: nat): seq<LogEntry> {
    if |es| <= limit then es else es[..limit]
  }

  class DocumentUpdateRepository {
    var entries: seq<LogEntry>

    ghost predicate Valid()
      reads this
    {
      Ascending(entries)
    }

    constructor ()
      ensures Valid() && entries == []
    {
      entries := [];
    }

    /** The unique index refuses a second entry with the same sequence number. */
    method Append(seqNo: int, update: Blob) returns (ok: bool)
      requires Valid()
      modifies this
      ensures Valid()
      ensures ok == !HasSeq(old(entries), seqNo)
      ensures entries == if ok then Inserted(old(entries), LogEntry(seqNo, update)) else old(entries)
    {
      if HasSeq(entries, seqNo) {
        return false;
      }
      InsertedKeepsOrder(entries, LogEntry(seqNo, update));
      entries := Inserted(entries, LogEntry(seqNo, update));
      ok := true;
    }

    method CompactUpTo(seqInclusive: int)
      requires Valid()
      modifies this
      ensures Valid() && entries == After(old(entries), seqInclusive)
      ensures var dropped := |old(entries)| - |entries|;
              && 0 <= dropped && entries == old(entries)[dropped..]
              && (forall i :: 0 <= i < dropped ==> old(entries)[i].seqNo <= seqInclusive)
              && (forall i :: 0 <= i < |entries| ==> seqInclusive < entries[i].seqNo)
    {
      AfterSelects(entries, seqInclusive);
      entries := After(entries, seqInclusive);
    }

    method ListAsc(afterSeq: int, limit: nat) returns (page: seq<LogEntry>)
      requires Valid()
      ensures page == Take(After(entries, afterSeq), limit)
      ensures var below := Rank(entries, afterSeq);
              && (forall i :: 0 <= i < below ==> entries[i].seqNo <= afterSeq)
              && (forall i :: 0 <= i < |page| ==> afterSeq < page[i].seqNo && page[i] == entries[below + i])
              && |page| <= limit && (|page| < limit ==> below + |page| == |entries|)
    {
      AfterSelects(entries, afterSeq);
      page := Take(After(entries, afterSeq), limit);
    }

    method LatestSeq() returns (s: int)
      requires Valid()
      ensures s == Latest(entries)
    {
      s := if entries == [] then 0 else entries[|entries| - 1].seqNo;
    }
  }

  function Latest(es: seq<LogEntry>): int {
    if es == [] then 0 else es[|es| - 1].seqNo
  }

  lemma {:induction false} RankBounds(es: seq<LogEntry>, s: int)
    ensures var n := Rank(es, s);
            (forall i :: 0 <= i < n ==> es[i].seqNo <= s) && (n < |es| ==> s < es[n].seqNo)
  {
    if es != [] && es[0].seqNo <= s {
      RankBounds(es[1..], s);
      var n := Rank(es, s);
      forall i | 0 <= i < n ensures es[i].seqNo <= s {
        assert i > 0 ==> es[i] == es[1..][i - 1];
      }
    }
  }

  /** In an ascending log what follows the rank of `s` is exactly what is numbered above `s`. */
  lemma AfterSelects(es: seq<LogEntry>, s: int)
    requires Ascending(es)
    ensures var n := Rank(es, s);
            && (forall i :: 0 <= i < n ==> es[i].seqNo <= s)
            && (forall i :: n <= i < |es| ==> s < es[i].seqNo)
  {
    RankBounds(es, s);
  }

  /** In an ascending log the rank is the only place where the numbers pass `s`. */
  lemma RankIs(es: seq<LogEntry>, s: int, n: nat)
    requires Ascending(es) && n <= |es|
    requires n == 0 || es[n - 1].seqNo <= s
    requires n == |es| || s < es[n].seqNo
    ensures Rank(es, s) == n
  {
    RankBounds(es, s);
  }

  lemma InsertedAt(es: seq<LogEntry>, e: LogEntry, i: nat)
    requires i <= |es|
    ensures var n := Rank(es, e.seqNo);
            Inserted(es, e)[i] == if i < n then es[i] else if i == n then e else es[i - 1]
    ensures |Inserted(es, e)| == |es| + 1
  {
  }

  lemma InsertedHas(es: seq<LogEntry>, e: LogEntry, s: int)
    ensures HasSeq(Inserted(es, e), s) <==> HasSeq(es, s) || s == e.seqNo
  {
    var n, t := Rank(es, e.seqNo), Inserted(es, e);
    InsertedAt(es, e, n);
    if i :| 0 <= i < |es| && es[i].seqNo == s {
      InsertedAt(es, e, if i < n then i else i + 1);
      assert t[if i < n then i else i + 1].seqNo == s;
    }
    if j :| 0 <= j < |t| && t[j].seqNo == s {
      InsertedAt(es, e, j);
    }
  }

  /** Appending anywhere keeps the log strictly ascending and adds exactly one number. */
  lemma InsertedKeepsOrder(es: seq<LogEntry>, e: LogEntry)
    requires Ascending(es) && !HasSeq(es, e.seqNo)
    ensures Ascending(Inserted(es, e))
    ensures forall s :: HasSeq(Inserted(es, e), s) <==> HasSeq(es, s) || s == e.seqNo
  {
    var n, t := Rank(es, e.seqNo), Inserted(es, e);
    RankBounds(es, e.seqNo);
    assert forall i :: 0 <= i < |es| ==> es[i].seqNo != e.seqNo;
    forall i, j | 0 <= i < j < |t| ensures t[i].seqNo < t[j].seqNo {
      InsertedAt(es, e, i);
      InsertedAt(es, e, j);
    }
    forall s ensures HasSeq(t, s) <==> HasSeq(es, s) || s == e.seqNo {
      InsertedHas(es, e, s);
    }
  }

  /** A new highest number goes to the end. */
  lemma InsertedAtEnd(es: seq<LogEntry>, e: LogEntry)
    requires Ascending(es) && (es != [] ==> Latest(es) < e.seqNo)
    ensures Inserted(es, e) == es + [e] && !HasSeq(es, e.seqNo) && Ascending(es + [e])
  {
    RankIs(es, e.seqNo, |es|);
  }

  /** The same for a log whose lower part has been dropped. */
  lemma AppendToRetained(es: seq<LogEntry>, floor: int, e: LogEntry)
    requires Ascending(es) && floor < e.seqNo && (es != [] ==> Latest(es) < e.seqNo)
    ensures Ascending(es + [e]) && After(es + [e], floor) == After(es, floor) + [e]
    ensures !HasSeq(After(es, floor), e.seqNo) && Inserted(After(es, floor), e) == After(es, floor) + [e]
  {
    var r, kept := Rank(es, floor), After(es, floor);
    RankBounds(es, floor);
    InsertedAtEnd(es, e);
    RankIs(es + [e], floor, r);
    assert (es + [e])[r..] == es[r..] + [e];
    assert Ascending(kept);
    assert kept != [] ==> Latest(kept) == Latest(es);
    InsertedAtEnd(kept, e);
  }

  function Max(a: int, b: int): int {
    if a < b then b else a
  }

  /** Dropping in two steps is dropping up to the larger bound. */
  lemma AfterTwice(es: seq<LogEntry>, s: int, t: int)
    requires Ascending(es)
    ensures After(After(es, s), t) == After(es, Max(s, t))
  {
    var r, rest := Rank(es, s), After(es, s);
    var k := Rank(rest, t);
    RankBounds(es, s);
    RankBounds(rest, t);
    assert k > 0 ==> rest[k - 1] == es[r + k - 1];
    assert k < |rest| ==> rest[k] == es[r + k];
    assert k == 0 && r > 0 ==> es[r - 1].seqNo <= s;
    assert k > 0 ==> s < es[r].seqNo <= es[r + k - 1].seqNo;
    RankIs(es, Max(s, t), r + k);
  }

  /** The updates of the entries that can be decoded, joined: what replaying a log computes. */
  ghost function Decoded(es: seq<LogEntry>): Doc {
    if es == [] then {} else
      Decoded(es[..|es| - 1]) + (if es[|es| - 1].update.Gzip? then es[|es| - 1].update.doc else {})
  }

  lemma DecodedSnoc(es: seq<LogEntry>, e: LogEntry)
    ensures Decoded(es + [e]) == if e.update.Gzip? then Decoded(es) + e.update.doc else Decoded(es)
  {
    assert (es + [e])[..|es|] == es;
  }

  lemma {:induction false} DecodedConcat(es: seq<LogEntry>, fs: seq<LogEntry>)
    ensures Decoded(es + fs) == Decoded(es) + Decoded(fs)
    decreases |fs|
  {
    if fs == [] {
      assert es + fs == es;
    } else {
      assert (es + fs)[..|es + fs| - 1] == es + fs[..|fs| - 1];
      DecodedConcat(es, fs[..|fs| - 1]);
    }
  }

  lemma DecodedSplits(es: seq<LogEntry>, s: int)
    ensures Decoded(es) == Decoded(UpTo(es, s)) + Decoded(After(es, s))
  {
    assert UpTo(es, s) + After(es, s) == es;
    DecodedConcat(UpTo(es, s), After(es, s));
  }
}
