/** The migration runner of `scripts/migrations.ts`: `up`, `down <steps>` and `to <id>`. */
module Migrations {
  import opened Common

  datatype Migration<!D> = Migration(id: string, up: D -> D, down: D -> D)

  /** The database, and the applied ids in the order of their marks. `failed` is the unique index refusing a mark. */
  datatype State<D> = State(db: D, applied: seq<string>, failed: bool)

  /** String order, by code units. */
  predicate Le(a: string, b: string) {
    a == "" || (b != "" && (a[0] < b[0] || (a[0] == b[0] && Le(a[1..], b[1..]))))
  }

  predicate Selected(id: string, target: Option<string>) {
    target.None? || Le(id, target.value)
  }

  /** Run one migration up and mark it. */
  function Marked<D>(s: State<D>, m: Migration<D>): State<D> {
    if m.id in s.applied then State(m.up(s.db), s.applied, true) else State(m.up(s.db), s.applied + [m.id], s.failed)
  }

  /** The `up` loop over the files: `done` is what was applied when the command started. */
  function Raised<D>(s: State<D>, ms: seq<Migration<D>>, done: set<string>, target: Option<string>): State<D>
    decreases |ms|
  {
    if ms == [] || s.failed then s
    else Raised(if Selected(ms[0].id, target) && ms[0].id !in done then Marked(s, ms[0]) else s, ms[1..], done, target)
  }

  function Without(ids: seq<string>, id: string): seq<string> {
    if ids == [] then [] else (if ids[0] == id then [] else [ids[0]]) + Without(ids[1..], id)
  }

  function Find<D>(ms: seq<Migration<D>>, id: string): Option<Migration<D>> {
    if ms == [] then None else if ms[0].id == id then Some(ms[0]) else Find(ms[1..], id)
  }

  /** Revert one id; an id without a file is skipped. */
  function Reverted<D>(s: State<D>, ms: seq<Migration<D>>, id: string): State<D> {
    match Find(ms, id)
    case Some(m) => s.(db := m.down(s.db), applied := Without(s.applied, id))
    case None => s
  }

  function Lowered<D>(s: State<D>, ms: seq<Migration<D>>, ids: seq<string>): State<D>
    decreases |ids|
  {
    if ids == [] then s else Lowered(Reverted(s, ms, ids[0]), ms, ids[1..])
  }

  function Beyond(ids: seq<string>, target: string): seq<string> {
    if ids == [] then [] else (if Le(ids[0], target) then [] else [ids[0]]) + Beyond(ids[1..], target)
  }

  function Ids(ids: seq<string>): set<string> {
    set i | i in ids
  }

  function Up<D>(s: State<D>, ms: seq<Migration<D>>): State<D> {
    Raised(s, ms, Ids(s.applied), None)
  }

  function Down<D>(s: State<D>, ms: seq<Migration<D>>, steps: nat): State<D> {
    var back := Reversed(s.applied);
    Lowered(s, ms, if steps < |back| then back[..steps] else back)
  }

  function To<D>(s: State<D>, ms: seq<Migration<D>>, target: string): State<D> {
    var t := Raised(s, ms, Ids(s.applied), Some(target));
    if t.failed then t else Lowered(t, ms, Reversed(Beyond(t.applied, target)))
  }

  class Runner<D> {
    const migrations: seq<Migration<D>>
    var db: D
    var applied: seq<string>
    var failed: bool

    function Value(): State<D>
      reads this
    {
      State(db, applied, failed)
    }

    constructor (migrations: seq<Migration<D>>, db: D, applied: seq<string>)
      ensures this.migrations == migrations && Value() == State(db, applied, false)
    {
      this.migrations, this.db, this.applied, this.failed := migrations, db, applied, false;
    }

    method MarkApplied(id: string)
      modifies this
      ensures db == old(db)
      ensures applied == if id in old(applied) then old(applied) else old(applied) + [id]
      ensures failed == (old(failed) || id in old(applied))
    {
      if id in applied {
        failed := true;
      } else {
        applied := applied + [id];
      }
    }

    method RaiseTo(target: Option<string>)
      modifies this
      ensures Value() == Raised(old(Value()), migrations, Ids(old(applied)), target)
    {
      var done := Ids(applied);
      var i := 0;
      while i < |migrations| && !failed
        invariant 0 <= i <= |migrations|
        invariant Raised(Value(), migrations[i..], done, target) == Raised(old(Value()), migrations, done, target)
      {
        var m := migrations[i];
        if Selected(m.id, target) && m.id !in done {
          db := m.up(db);
          MarkApplied(m.id);
        }
        i := i + 1;
      }
    }

    method Lower(ids: seq<string>)
      modifies this
      ensures Value() == Lowered(old(Value()), migrations, ids)
    {
      var i := 0;
      while i < |ids|
        invariant 0 <= i <= |ids| && Lowered(Value(), migrations, ids[i..]) == Lowered(old(Value()), migrations, ids)
      {
        var m := Find(migrations, ids[i]);
        if m.Some? {
          db := m.value.down(db);
          applied := Without(applied, ids[i]);
        }
        i := i + 1;
      }
    }

    method RunUp()
      modifies this
      ensures Value() == Up(old(Value()), migrations)
    {
      RaiseTo(None);
    }

    method RunDown(steps: nat)
      modifies this
      ensures Value() == Down(old(Value()), migrations, steps)
    {
      var back := Reversed(applied);
      Lower(if steps < |back| then back[..steps] else back);
    }

    method RunTo(target: string)
      modifies this
      ensures Value() == To(old(Value()), migrations, target)
    {
      RaiseTo(Some(target));
      if !failed {
        Lower(Reversed(Beyond(applied, target)));
      }
    }
  }

  // ---------- What the commands achieve ----------

  ghost predicate DistinctFiles<D>(ms: seq<Migration<D>>) {
    forall i, j :: 0 <= i < j < |ms| ==> ms[i].id != ms[j].id
  }

  ghost predicate HasFile<D>(ms: seq<Migration<D>>, id: string) {
    exists i :: 0 <= i < |ms| && ms[i].id == id
  }

  lemma {:induction false} WithoutMember(ids: seq<string>, id: string, x: string)
    ensures x in Without(ids, id) <==> x in ids && x != id
  {
    if ids != [] {
      WithoutMember(ids[1..], id, x);
    }
  }

  lemma {:induction false} WithoutLast(ids: seq<string>, id: string)
    requires id !in ids
    ensures Without(ids + [id], id) == ids && Without(ids, id) == ids
  {
    if ids == [] {
      assert ids + [id] == [id];
    } else {
      assert (ids + [id])[1..] == ids[1..] + [id];
      WithoutLast(ids[1..], id);
    }
  }

  lemma {:induction false} BeyondMember(ids: seq<string>, target: string, x: string)
    ensures x in Beyond(ids, target) <==> x in ids && !Le(x, target)
  {
    if ids != [] {
      BeyondMember(ids[1..], target, x);
    }
  }

  lemma {:induction false} FindFile<D>(ms: seq<Migration<D>>, id: string)
    ensures Find(ms, id).Some? <==> HasFile(ms, id)
    ensures Find(ms, id).Some? ==> Find(ms, id).value in ms && Find(ms, id).value.id == id
  {
    if ms != [] {
      FindFile(ms[1..], id);
      assert forall i :: 0 < i < |ms| ==> ms[i] == ms[1..][i - 1];
      if HasFile(ms[1..], id) {
        var i :| 0 <= i < |ms[1..]| && ms[1..][i].id == id;
        assert ms[i + 1].id == id;
      }
    }
  }

  /** The ids that the loop over `ms` would mark. */
  ghost function Pending<D>(ms: seq<Migration<D>>, done: set<string>, target: Option<string>): seq<string> {
    if ms == [] then [] else
      (if Selected(ms[0].id, target) && ms[0].id !in done then [ms[0].id] else []) + Pending(ms[1..], done, target)
  }

  lemma {:induction false} PendingMember<D>(ms: seq<Migration<D>>, done: set<string>, target: Option<string>, x: string)
    ensures x in Pending(ms, done, target) <==> HasFile(ms, x) && Selected(x, target) && x !in done
  {
    if ms != [] {
      PendingMember(ms[1..], done, target, x);
      assert HasFile(ms, x) <==> ms[0].id == x || HasFile(ms[1..], x) by {
        assert forall i :: 0 < i < |ms| ==> ms[i] == ms[1..][i - 1];
        if HasFile(ms[1..], x) {
          var i :| 0 <= i < |ms[1..]| && ms[1..][i].id == x;
          assert ms[i + 1].id == x;
        }
      }
    }
  }

  /** Raising marks exactly the pending ids, in file order, and never fails when files have distinct ids. */
  lemma {:induction false} RaisedMarks<D>(s: State<D>, ms: seq<Migration<D>>, done: set<string>, target: Option<string>)
    requires DistinctFiles(ms) && !s.failed
    requires forall i :: 0 <= i < |ms| && ms[i].id !in done ==> ms[i].id !in s.applied
    ensures var t := Raised(s, ms, done, target);
            !t.failed && t.applied == s.applied + Pending(ms, done, target)
    decreases |ms|
  {
    if ms != [] {
      var t := if Selected(ms[0].id, target) && ms[0].id !in done then Marked(s, ms[0]) else s;
      RaisedMarks(t, ms[1..], done, target);
    }
  }

  lemma {:induction false} LoweredMember<D>(s: State<D>, ms: seq<Migration<D>>, ids: seq<string>, x: string)
    ensures x in Lowered(s, ms, ids).applied <==> x in s.applied && !(x in ids && HasFile(ms, x))
    ensures Lowered(s, ms, ids).failed == s.failed
    decreases |ids|
  {
    if ids != [] {
      FindFile(ms, ids[0]);
      WithoutMember(s.applied, ids[0], x);
      LoweredMember(Reverted(s, ms, ids[0]), ms, ids[1..], x);
    }
  }

  /**
   From any starting point `to t` ends with exactly the files up to `t` applied; applied ids that
   have no file stay as they were.
  */
  lemma ToReachesTarget<D>(s: State<D>, ms: seq<Migration<D>>, target: string)
    requires DistinctFiles(ms) && !s.failed
    ensures var t := To(s, ms, target);
            !t.failed && forall x :: x in t.applied <==> if HasFile(ms, x) then Le(x, target) else x in s.applied
  {
    var done := Ids(s.applied);
    RaisedMarks(s, ms, done, Some(target));
    var t := Raised(s, ms, done, Some(target));
    var back := Reversed(Beyond(t.applied, target));
    LoweredMember(t, ms, back, "");
    forall x ensures x in To(s, ms, target).applied <==> if HasFile(ms, x) then Le(x, target) else x in s.applied {
      PendingMember(ms, done, Some(target), x);
      BeyondMember(t.applied, target, x);
      ReversedMember(Beyond(t.applied, target), x);
      LoweredMember(t, ms, back, x);
    }
  }

  ghost predicate NoOrphans<D>(s: State<D>, ms: seq<Migration<D>>) {
    forall x :: x in s.applied ==> HasFile(ms, x)
  }

  /** Exactly the files up to the target, whatever was applied before, if and only if every applied id has a file. */
  lemma ToIsExactIff<D>(s: State<D>, ms: seq<Migration<D>>, target: string)
    requires DistinctFiles(ms) && !s.failed
    ensures (forall x :: x in To(s, ms, target).applied <==> HasFile(ms, x) && Le(x, target)) <==> NoOrphans(s, ms)
  {
    ToReachesTarget(s, ms, target);
  }

  lemma {:induction false} NothingPending<D>(s: State<D>, ms: seq<Migration<D>>, done: set<string>,
                                             target: Option<string>)
    requires forall i :: 0 <= i < |ms| && Selected(ms[i].id, target) ==> ms[i].id in done
    ensures Raised(s, ms, done, target) == s
  {
    if ms != [] {
      NothingPending(s, ms[1..], done, target);
    }
  }

  lemma {:induction false} OrphansAreSkipped<D>(s: State<D>, ms: seq<Migration<D>>, ids: seq<string>)
    requires forall x :: x in ids ==> !HasFile(ms, x)
    ensures Lowered(s, ms, ids) == s
  {
    if ids != [] {
      FindFile(ms, ids[0]);
      OrphansAreSkipped(s, ms, ids[1..]);
    }
  }

  /** Running `to t` again changes neither the marks nor the database. */
  lemma ToIsIdempotent<D>(s: State<D>, ms: seq<Migration<D>>, target: string)
    requires DistinctFiles(ms) && !s.failed
    ensures To(To(s, ms, target), ms, target) == To(s, ms, target)
  {
    var t := To(s, ms, target);
    ToReachesTarget(s, ms, target);
    forall i | 0 <= i < |ms| && Selected(ms[i].id, Some(target)) ensures ms[i].id in Ids(t.applied) {
      assert HasFile(ms, ms[i].id);
    }
    NothingPending(t, ms, Ids(t.applied), Some(target));
    var back := Reversed(Beyond(t.applied, target));
    forall x | x in back ensures !HasFile(ms, x) {
      ReversedMember(Beyond(t.applied, target), x);
      BeyondMember(t.applied, target, x);
    }
    OrphansAreSkipped(t, ms, back);
  }

  /** Every `down` undoes its `up`. */
  ghost predicate Inverses<D(!new)>(ms: seq<Migration<D>>) {
    forall i, d :: 0 <= i < |ms| ==> ms[i].down(ms[i].up(d)) == d
  }

  lemma {:induction false} LoweredConcat<D>(s: State<D>, ms: seq<Migration<D>>, a: seq<string>, b: seq<string>)
    ensures Lowered(s, ms, a + b) == Lowered(Lowered(s, ms, a), ms, b)
    decreases |a|
  {
    if a == [] {
      assert a + b == b;
    } else {
      assert (a + b)[1..] == a[1..] + b;
      LoweredConcat(Reverted(s, ms, a[0]), ms, a[1..], b);
    }
  }

  lemma FindOwn<D>(ms: seq<Migration<D>>, i: nat)
    requires DistinctFiles(ms) && i < |ms|
    ensures Find(ms, ms[i].id) == Some(ms[i])
  {
    FindFile(ms, ms[i].id);
  }

  /** Reverting what the loop marked over `all[k..hi]`, latest first, restores marks and database. */
  lemma {:induction false} LoweringUndoesRaising<D(!new)>(s: State<D>, all: seq<Migration<D>>, k: nat, hi: nat,
                                                          done: set<string>)
    requires DistinctFiles(all) && Inverses(all) && !s.failed && k <= hi <= |all|
    requires forall i :: k <= i < hi && all[i].id !in done ==> all[i].id !in s.applied
    ensures Lowered(Raised(s, all[k..hi], done, None), all, Reversed(Pending(all[k..hi], done, None))) == s
    decreases hi - k
  {
    if k < hi {
      var m := all[k];
      assert all[k..hi][1..] == all[k + 1..hi];
      var rest := Pending(all[k + 1..hi], done, None);
      if m.id in done {
        LoweringUndoesRaising(s, all, k + 1, hi, done);
        assert Pending(all[k..hi], done, None) == rest;
      } else {
        var t := Marked(s, m);
        LoweringUndoesRaising(t, all, k + 1, hi, done);
        assert Pending(all[k..hi], done, None) == [m.id] + rest;
        ReversedConcat([m.id], rest);
        assert Reversed([m.id]) == [m.id];
        LoweredConcat(Raised(t, all[k + 1..hi], done, None), all, Reversed(rest), [m.id]);
        FindOwn(all, k);
        WithoutLast(s.applied, m.id);
        assert Lowered(t, all, [m.id]) == Reverted(t, all, m.id);
      }
    }
  }

  /** `up`, then `down` by as many steps as `up` applied, restores the applied list and the database. */
  lemma UpThenDownRestores<D(!new)>(s: State<D>, ms: seq<Migration<D>>)
    requires DistinctFiles(ms) && Inverses(ms) && !s.failed
    ensures var t := Up(s, ms);
            |s.applied| <= |t.applied| && Down(t, ms, |t.applied| - |s.applied|) == s
  {
    var done := Ids(s.applied);
    RaisedMarks(s, ms, done, None);
    var p := Pending(ms, done, None);
    assert ms[0..|ms|] == ms;
    LoweringUndoesRaising(s, ms, 0, |ms|, done);
    ReversedConcat(s.applied, p);
    ReversedTwice(s.applied);
    ReversedTwice(p);
    var back := Reversed(p) + Reversed(s.applied);
    assert Reversed(Up(s, ms).applied) == back && |back| == |p| + |s.applied|;
    assert back[..|p|] == Reversed(p) && (s.applied == [] ==> back == Reversed(p));
  }

  // ---------- What `up`, `down` and `to` leave ----------

  /** `up` applies every file, in file order, after what was applied already. */
  lemma UpAppliesAll<D>(s: State<D>, ms: seq<Migration<D>>)
    requires DistinctFiles(ms) && !s.failed
    ensures var t := Up(s, ms);
            && !t.failed && t.applied == s.applied + Pending(ms, Ids(s.applied), None)
            && forall x :: x in t.applied <==> x in s.applied || HasFile(ms, x)
  {
    var done := Ids(s.applied);
    RaisedMarks(s, ms, done, None);
    forall x ensures x in Pending(ms, done, None) <==> HasFile(ms, x) && x !in done {
      PendingMember(ms, done, None, x);
    }
  }

  ghost predicate Distinct(ids: seq<string>) {
    forall i, j :: 0 <= i < j < |ids| ==> ids[i] != ids[j]
  }

  lemma DistinctCons(id: string, rest: seq<string>)
    ensures Distinct([id] + rest) <==> Distinct(rest) && id !in rest
  {
    var ids := [id] + rest;
    if Distinct(ids) {
      forall i, j | 0 <= i < j < |rest| ensures rest[i] != rest[j] {
        assert rest[i] == ids[i + 1] && rest[j] == ids[j + 1];
      }
      forall j | 0 <= j < |rest| ensures rest[j] != id {
        assert rest[j] == ids[j + 1] && ids[0] == id;
      }
    }
  }

  /** Raising fails exactly when it comes to mark an id twice, or one that was marked meanwhile. */
  lemma {:induction false} RaisedFailsIff<D>(s: State<D>, ms: seq<Migration<D>>, done: set<string>,
                                             target: Option<string>)
    requires !s.failed
    ensures var p := Pending(ms, done, target);
            Raised(s, ms, done, target).failed <==> !(Distinct(p) && forall x :: x in p ==> x !in s.applied)
    decreases |ms|
  {
    if ms != [] {
      var m, rest := ms[0], Pending(ms[1..], done, target);
      if Selected(m.id, target) && m.id !in done {
        DistinctCons(m.id, rest);
        assert m.id in [m.id] + rest && forall x :: x in rest ==> x in [m.id] + rest;
        if m.id !in s.applied {
          RaisedFailsIff(Marked(s, m), ms[1..], done, target);
        }
      } else {
        RaisedFailsIff(s, ms[1..], done, target);
        assert Pending(ms, done, target) == rest;
      }
    }
  }

  lemma RevertedDrops<D>(s: State<D>, ms: seq<Migration<D>>, init: seq<string>, last: string)
    requires s.applied == init + [last] && last !in init && HasFile(ms, last)
    ensures Reverted(s, ms, last).applied == init
  {
    FindFile(ms, last);
    WithoutLast(init, last);
  }

  lemma {:induction false} LoweredDropsLast<D>(s: State<D>, ms: seq<Migration<D>>, kept: seq<string>, drop: seq<string>)
    requires s.applied == kept + drop && Distinct(s.applied) && forall x :: x in drop ==> HasFile(ms, x)
    ensures Lowered(s, ms, Reversed(drop)).applied == kept
    decreases |drop|
  {
    if drop == [] {
      assert kept + drop == kept;
    } else {
      var init, last := drop[..|drop| - 1], drop[|drop| - 1];
      assert drop == init + [last] && s.applied == (kept + init) + [last];
      forall i | 0 <= i < |kept + init| ensures (kept + init)[i] != last {
        assert s.applied[i] == (kept + init)[i] && s.applied[|kept + init|] == last;
      }
      RevertedDrops(s, ms, kept + init, last);
      ReversedConcat(init, [last]);
      assert Reversed([last]) == [last];
      var t := Reverted(s, ms, last);
      assert forall i :: 0 <= i < |t.applied| ==> t.applied[i] == s.applied[i];
      LoweredDropsLast(t, ms, kept, init);
      assert ([last] + Reversed(init))[1..] == Reversed(init);
    }
  }

  /** `down k` unmarks exactly the `k` latest ids, or all when there are fewer. */
  lemma DownDropsLast<D>(s: State<D>, ms: seq<Migration<D>>, steps: nat)
    requires Distinct(s.applied) && NoOrphans(s, ms)
    ensures Down(s, ms, steps).applied == if steps < |s.applied| then s.applied[..|s.applied| - steps] else []
  {
    var k := if steps < |s.applied| then steps else |s.applied|;
    var kept, drop := s.applied[..|s.applied| - k], s.applied[|s.applied| - k..];
    assert s.applied == kept + drop;
    ReversedConcat(kept, drop);
    ReversedTwice(drop);
    ReversedTwice(s.applied);
    LoweredDropsLast(s, ms, kept, drop);
    assert Reversed(s.applied)[..k] == Reversed(drop);
    assert k == |s.applied| ==> Reversed(s.applied)[..k] == Reversed(s.applied);
  }

  lemma {:induction false} RaisedConcat<D>(s: State<D>, a: seq<Migration<D>>, b: seq<Migration<D>>, done: set<string>,
                                           target: Option<string>)
    ensures Raised(s, a + b, done, target) == Raised(Raised(s, a, done, target), b, done, target)
    decreases |a|
  {
    if a == [] {
      assert a + b == b;
    } else {
      assert (a + b)[1..] == a[1..] + b;
      if !s.failed {
        var t := if Selected(a[0].id, target) && a[0].id !in done then Marked(s, a[0]) else s;
        RaisedConcat(t, a[1..], b, done, target);
      }
    }
  }

  /** Only which files are run matters. */
  lemma {:induction false} RaisedAlike<D>(s: State<D>, ms: seq<Migration<D>>, done: set<string>, target: Option<string>,
                                          done': set<string>, target': Option<string>)
    requires forall i :: 0 <= i < |ms| ==>
               (Selected(ms[i].id, target) && ms[i].id !in done
                <==> Selected(ms[i].id, target') && ms[i].id !in done')
    ensures Raised(s, ms, done, target) == Raised(s, ms, done', target')
    decreases |ms|
  {
    if ms != [] {
      var t := if Selected(ms[0].id, target) && ms[0].id !in done then Marked(s, ms[0]) else s;
      RaisedAlike(t, ms[1..], done, target, done', target');
    }
  }

  lemma {:induction false} NoneSelected<D>(s: State<D>, ms: seq<Migration<D>>, done: set<string>,
                                           target: Option<string>)
    requires forall i :: 0 <= i < |ms| ==> !(Selected(ms[i].id, target) && ms[i].id !in done)
    ensures Raised(s, ms, done, target) == s
    decreases |ms|
  {
    if ms != [] {
      NoneSelected(s, ms[1..], done, target);
    }
  }

  function IdsOf<D>(ms: seq<Migration<D>>): seq<string> {
    seq(|ms|, i requires 0 <= i < |ms| => ms[i].id)
  }

  lemma {:induction false} PendingFresh<D>(ms: seq<Migration<D>>)
    ensures Pending(ms, {}, None) == IdsOf(ms)
  {
    if ms != [] {
      PendingFresh(ms[1..]);
      assert IdsOf(ms) == [ms[0].id] + IdsOf(ms[1..]);
    }
  }

  lemma {:induction false} BeyondIs(ids: seq<string>, target: string, k: nat)
    requires k <= |ids| && forall i :: 0 <= i < |ids| ==> (Le(ids[i], target) <==> i < k)
    ensures Beyond(ids, target) == ids[k..]
  {
    if ids != [] {
      BeyondIs(ids[1..], target, if k > 0 then k - 1 else 0);
      assert k > 0 ==> ids[1..][k - 1..] == ids[k..];
    }
  }

  /** The state after the first `k` files, from a state in which nothing is applied. */
  function Reached<D>(s: State<D>, ms: seq<Migration<D>>, k: nat): State<D>
    requires k <= |ms|
  {
    Raised(s, ms[..k], {}, None)
  }

  lemma ReachedMarks<D>(s: State<D>, ms: seq<Migration<D>>, k: nat)
    requires DistinctFiles(ms) && s.applied == [] && !s.failed && k <= |ms|
    ensures !Reached(s, ms, k).failed && Reached(s, ms, k).applied == IdsOf(ms[..k])
  {
    RaisedMarks(s, ms[..k], {}, None);
    PendingFresh(ms[..k]);
  }

  /** From the state after `j` files, raising to the target reaches the state after `k`, or changes nothing. */
  lemma RaisingReaches<D>(s: State<D>, ms: seq<Migration<D>>, j: nat, k: nat, target: string)
    requires DistinctFiles(ms) && s.applied == [] && !s.failed && j <= |ms| && k <= |ms|
    requires forall i :: 0 <= i < |ms| ==> (Le(ms[i].id, target) <==> i < k)
    ensures var t := Reached(s, ms, j);
            Raised(t, ms, Ids(t.applied), Some(target)) == if j <= k then Reached(s, ms, k) else t
  {
    var t := Reached(s, ms, j);
    ReachedMarks(s, ms, j);
    var done := Ids(t.applied);
    forall i | 0 <= i < |ms| ensures ms[i].id in done <==> i < j {
      if i < j {
        assert IdsOf(ms[..j])[i] == ms[i].id;
      }
    }
    if j <= k {
      assert ms == (ms[..j] + ms[j..k]) + ms[k..] && ms[..k] == ms[..j] + ms[j..k];
      RaisedConcat(t, ms[..j] + ms[j..k], ms[k..], done, Some(target));
      RaisedConcat(t, ms[..j], ms[j..k], done, Some(target));
      NoneSelected(t, ms[..j], done, Some(target));
      RaisedAlike(t, ms[j..k], done, Some(target), {}, None);
      RaisedConcat(s, ms[..j], ms[j..k], {}, None);
      NoneSelected(Reached(s, ms, k), ms[k..], done, Some(target));
    } else {
      NoneSelected(t, ms, done, Some(target));
    }
  }

  /** Reverting what lies beyond the target leads from the state after `j` files back to the one after `k`. */
  lemma LoweringReaches<D(!new)>(s: State<D>, ms: seq<Migration<D>>, j: nat, k: nat, target: string)
    requires DistinctFiles(ms) && Inverses(ms) && s.applied == [] && !s.failed && k <= j <= |ms|
    requires forall i :: 0 <= i < |ms| ==> (Le(ms[i].id, target) <==> i < k)
    ensures var t := Reached(s, ms, j);
            Lowered(t, ms, Reversed(Beyond(t.applied, target))) == Reached(s, ms, k)
  {
    var t, u := Reached(s, ms, j), Reached(s, ms, k);
    ReachedMarks(s, ms, j);
    ReachedMarks(s, ms, k);
    BeyondIs(t.applied, target, k);
    assert t.applied[k..] == IdsOf(ms[k..j]);
    assert ms[..j] == ms[..k] + ms[k..j];
    RaisedConcat(s, ms[..k], ms[k..j], {}, None);
    PendingFresh(ms[k..j]);
    forall i | k <= i < j ensures ms[i].id !in u.applied {
      assert forall n :: 0 <= n < k ==> IdsOf(ms[..k])[n] == ms[n].id;
    }
    LoweringUndoesRaising(u, ms, k, j, {});
  }

  /**
   `to` is independent of the path, database included: from the state after any `j` files it leads to the state that
   running the first `k` files would have given, whether it has to run some or to revert some, latest first.
  */
  lemma ToIsPathIndependent<D(!new)>(s: State<D>, ms: seq<Migration<D>>, j: nat, k: nat, target: string)
    requires DistinctFiles(ms) && Inverses(ms) && s.applied == [] && !s.failed && j <= |ms| && k <= |ms|
    requires forall i :: 0 <= i < |ms| ==> (Le(ms[i].id, target) <==> i < k)
    ensures To(Reached(s, ms, j), ms, target) == Reached(s, ms, k)
  {
    RaisingReaches(s, ms, j, k, target);
    ReachedMarks(s, ms, k);
    ReachedMarks(s, ms, j);
    LoweringReaches(s, ms, if j <= k then k else j, k, target);
  }

  lemma PrefixTail(a: string, b: string)
    requires a != [] && b != [] && a[0] == b[0]
    ensures a <= b <==> a[1..] <= b[1..]
  {
    assert a == [a[0]] + a[1..] && b == [b[0]] + b[1..];
  }

  /** At position `k` the strings differ for the first time, and `a` has the smaller character. */
  ghost predicate DiffersAt(a: string, b: string, k: int) {
    0 <= k < |a| && k < |b| && a[..k] == b[..k] && a[k] < b[k]
  }

  lemma DiffersTail(a: string, b: string, k: nat)
    requires a != [] && b != [] && a[0] == b[0]
    ensures DiffersAt(a, b, k + 1) <==> DiffersAt(a[1..], b[1..], k)
  {
    if k < |a| - 1 && k < |b| - 1 {
      assert a[..k + 1] == [a[0]] + a[1..][..k] && b[..k + 1] == [b[0]] + b[1..][..k];
    }
  }

  /** The ids are compared as strings are: by the first character that differs, a prefix being the smaller. */
  lemma {:induction false} LeIff(a: string, b: string)
    ensures Le(a, b) <==> a <= b || exists k :: DiffersAt(a, b, k)
  {
    if a != [] && b != [] {
      if a[0] == b[0] {
        LeIff(a[1..], b[1..]);
        PrefixTail(a, b);
        if k :| DiffersAt(a, b, k) {
          DiffersTail(a, b, k - 1);
        }
        if k :| DiffersAt(a[1..], b[1..], k) {
          DiffersTail(a, b, k);
        }
      } else {
        assert a[..0] == b[..0];
        assert DiffersAt(a, b, 0) <==> a[0] < b[0];
        assert forall k :: DiffersAt(a, b, k) && k > 0 ==> a[0] == a[..k][0] == b[..k][0] == b[0];
      }
    }
  }
}
