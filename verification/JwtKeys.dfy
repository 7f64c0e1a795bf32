/** The rotating signing keys of `jwt-keys.service.ts`. Times are in seconds. */
module JwtKeys {
  datatype KeyRecord = KeyRecord(secret: nat, createdAt: int)

  /** Key id "kN" is the number N, and 0 is the empty current id of a store that was never saved. */
  datatype Store = Store(current: nat, keys: map<nat, KeyRecord>)

  const EMPTY := Store(0, map[])

  function Initialized(s: Store, now: int, secret: nat): Store {
    if s.current == 0 then Store(1, s.keys[1 := KeyRecord(secret, now)]) else s
  }

  predicate Due(s: Store, now: int, period: nat) {
    s.current in s.keys && now - s.keys[s.current].createdAt >= period
  }

  function Pruned(keys: map<nat, KeyRecord>, cutoff: int): map<nat, KeyRecord> {
    map k | k in keys && cutoff <= keys[k].createdAt :: keys[k]
  }

  /** The new id is derived from the number of keys, so it may be in use. */
  function NextKid(s: Store): nat {
    |s.keys| + 1
  }

  function Rotated(s: Store, now: int, period: nat, secret: nat): Store {
    if s.current !in s.keys then Initialized(s, now, secret)
    else if !Due(s, now, period) then s
    else Store(NextKid(s), Pruned(s.keys[NextKid(s) := KeyRecord(secret, now)], now - 3 * period))
  }

  /** Never saved, or with a current key. */
  predicate Usable(s: Store) {
    s == EMPTY || (s.current != 0 && s.current in s.keys)
  }

  class JwtKeysService {
    var store: Store
    const period: nat

    constructor (rotateDays: nat)
      ensures store == EMPTY && period == rotateDays * 86_400
    {
      store, period := EMPTY, rotateDays * 86_400;
    }

    method EnsureInitialized(now: int, secret: nat)
      modifies this
      ensures store == Initialized(old(store), now, secret)
    {
      if store.current == 0 {
        store := Store(1, store.keys[1 := KeyRecord(secret, now)]);
      }
    }

    method EnsureRotation(now: int, secret: nat)
      modifies this
      ensures store == Rotated(old(store), now, period, secret)
    {
      if store.current !in store.keys {
        EnsureInitialized(now, secret);
        return;
      }
      if now - store.keys[store.current].createdAt < period {
        return;
      }
      var kid := |store.keys| + 1;
      var keys := store.keys[kid := KeyRecord(secret, now)];
      var cutoff := now - 3 * period;
      ghost var all := keys;
      var todo := keys.Keys;
      while todo != {}
        invariant todo <= keys.Keys <= all.Keys
        invariant forall k :: k in keys ==> keys[k] == all[k]
        invariant forall k :: k in all && k !in todo ==> (k in keys <==> cutoff <= all[k].createdAt)
      {
        var k :| k in todo;
        todo := todo - {k};
        if keys[k].createdAt < cutoff {
          keys := keys - {k};
        }
      }
      assert keys == Pruned(all, cutoff);
      store := Store(kid, keys);
    }

    method GetCurrent(now: int, secret: nat) returns (kid: nat, key: nat)
      requires Usable(store)
      modifies this
      ensures store == Rotated(old(store), now, period, secret) && Usable(store)
      ensures kid == store.current && kid in store.keys && key == store.keys[kid].secret
    {
      EnsureRotation(now, secret);
      kid, key := store.current, store.keys[store.current].secret;
    }
  }

  // ---------- Runs ----------

  datatype Call = Init(at: int, secret: nat) | Rotate(at: int, secret: nat)

  function Apply(s: Store, c: Call, period: nat): Store {
    match c
    case Init(at, secret) => Initialized(s, at, secret)
    case Rotate(at, secret) => Rotated(s, at, period, secret)
  }

  function Run(calls: seq<Call>, period: nat): Store {
    if calls == [] then EMPTY else Apply(Run(calls[..|calls| - 1], period), calls[|calls| - 1], period)
  }

  ghost predicate InOrder(calls: seq<Call>) {
    forall i, j :: 0 <= i < j < |calls| ==> calls[i].at <= calls[j].at
  }

  ghost predicate Spaced(keys: map<nat, KeyRecord>, period: nat) {
    forall i, j :: i in keys && j in keys && i != j ==>
      keys[i].createdAt + period <= keys[j].createdAt || keys[j].createdAt + period <= keys[i].createdAt
  }

  /** A current key that is the newest, keys pairwise a period apart, and none older than three periods before it. */
  ghost predicate Good(s: Store, now: int, period: nat) {
    s == EMPTY || (
      && s.current != 0 && s.current in s.keys && Spaced(s.keys, period)
      && var newest := s.keys[s.current].createdAt;
         newest <= now && forall k :: k in s.keys ==> newest - 3 * period <= s.keys[k].createdAt <= newest)
  }

  lemma StepKeepsGood(s: Store, before: int, c: Call, period: nat)
    requires Good(s, before, period) && before <= c.at
    ensures Good(Apply(s, c, period), c.at, period)
  {
  }

  lemma {:induction false} RunIsGood(calls: seq<Call>, period: nat)
    requires InOrder(calls)
    ensures calls != [] ==> Good(Run(calls, period), calls[|calls| - 1].at, period)
  {
    if calls != [] {
      var init, c := calls[..|calls| - 1], calls[|calls| - 1];
      RunIsGood(init, period);
      var before := if init == [] then c.at else init[|init| - 1].at;
      StepKeepsGood(Run(init, period), before, c, period);
    }
  }

  /** Keys created within less than a period of each other are one key. */
  lemma OnePerPeriod(keys: map<nat, KeyRecord>, ids: set<nat>, from: int, period: nat)
    requires Spaced(keys, period) && ids <= keys.Keys
    requires forall k :: k in ids ==> from <= keys[k].createdAt < from + period
    ensures |ids| <= 1
  {
    if ids != {} {
      var k :| k in ids;
      assert ids == {k};
    }
  }

  lemma TwoPerTwoPeriods(keys: map<nat, KeyRecord>, ids: set<nat>, from: int, period: nat)
    requires Spaced(keys, period) && ids <= keys.Keys
    requires forall k :: k in ids ==> from <= keys[k].createdAt < from + 2 * period
    ensures |ids| <= 2
  {
    var a := set k | k in ids && keys[k].createdAt < from + period;
    OnePerPeriod(keys, a, from, period);
    OnePerPeriod(keys, ids - a, from + period, period);
    assert ids == a + (ids - a);
  }

  lemma AtMostFour(keys: map<nat, KeyRecord>, newest: int, period: nat)
    requires 0 < period && Spaced(keys, period)
    requires forall k :: k in keys ==> newest - 3 * period <= keys[k].createdAt <= newest
    ensures |keys| <= 4
  {
    var a := set k | k in keys && keys[k].createdAt < newest - period;
    TwoPerTwoPeriods(keys, a, newest - 3 * period, period);
    TwoPerTwoPeriods(keys, keys.Keys - a, newest - period, period);
    assert keys.Keys == a + (keys.Keys - a) && |keys| == |keys.Keys|;
  }

  /**
   In every run with a clock that does not go back, there is a current key once anything ran, keys
   were created at least one rotation period apart, and at most four are kept if that period is not 0.
  */
  lemma KeysStayFewAndSpaced(calls: seq<Call>, period: nat)
    requires InOrder(calls) && calls != []
    ensures var s := Run(calls, period);
            s.current in s.keys && Spaced(s.keys, period) && (0 < period ==> |s.keys| <= 4)
  {
    RunIsGood(calls, period);
    SomethingStored(calls, period);
    var s := Run(calls, period);
    if 0 < period {
      AtMostFour(s.keys, s.keys[s.current].createdAt, period);
    }
  }

  lemma {:induction false} SomethingStored(calls: seq<Call>, period: nat)
    requires calls != []
    ensures Run(calls, period) != EMPTY
  {
    var init := calls[..|calls| - 1];
    if init != [] {
      SomethingStored(init, period);
    }
  }

  /**
   A rotation keeps the retiring key verifiable exactly when the new id differs from the current
   one and the retiring key is not older than three periods.
  */
  lemma RetiringKeySurvivesIff(s: Store, before: int, now: int, period: nat, secret: nat)
    requires Good(s, before, period) && Due(s, now, period)
    requires 0 < period || secret != s.keys[s.current].secret
    ensures var t, k := Rotated(s, now, period, secret), s.current;
            (k in t.keys && t.keys[k] == s.keys[k]) <==>
              NextKid(s) != k && now - s.keys[k].createdAt <= 3 * period
  {
  }

  /** A check rotates exactly when the current key is a period old; the new key is the given secret, as of now. */
  lemma RotatesIffOld(s: Store, now: int, period: nat, secret: nat)
    requires Usable(s) && s != EMPTY
    ensures var t := Rotated(s, now, period, secret);
            if period <= now - s.keys[s.current].createdAt
            then t.current in t.keys && t.keys[t.current] == KeyRecord(secret, now)
            else t == s
  {
  }

  /** In every run, right after a check the current key is younger than a period. */
  lemma CheckedKeyIsYoung(calls: seq<Call>, at: int, secret: nat, period: nat)
    requires InOrder(calls + [Rotate(at, secret)]) && 0 < period
    ensures var t := Run(calls + [Rotate(at, secret)], period);
            t.current in t.keys && at - t.keys[t.current].createdAt < period
  {
    var s := Run(calls, period);
    var all := calls + [Rotate(at, secret)];
    forall i, j | 0 <= i < j < |calls| ensures calls[i].at <= calls[j].at {
      assert calls[i] == all[i] && calls[j] == all[j];
    }
    RunIsGood(calls, period);
    RunSnoc(calls, Rotate(at, secret), period);
    if s != EMPTY {
      RotatesIffOld(s, at, period, secret);
    }
  }

  function Continued(s: Store, calls: seq<Call>, period: nat): Store
    decreases |calls|
  {
    if calls == [] then s else Continued(Apply(s, calls[0], period), calls[1..], period)
  }

  /** A rotation neither takes the id `k` for its new key nor finds that key older than three periods. */
  predicate Spares(s: Store, c: Call, k: nat, period: nat) {
    c.Rotate? && Due(s, c.at, period) ==> NextKid(s) != k && k in s.keys && c.at - s.keys[k].createdAt <= 3 * period
  }

  predicate AllSpare(s: Store, calls: seq<Call>, k: nat, period: nat)
    decreases |calls|
  {
    calls == [] || (Spares(s, calls[0], k, period) && AllSpare(Apply(s, calls[0], period), calls[1..], k, period))
  }

  predicate Verifiable(s: Store, k: nat, rec: KeyRecord) {
    k in s.keys && s.keys[k] == rec
  }

  /** Once gone, `rec` does not come back: whatever has its id is newer. */
  predicate Gone(s: Store, k: nat, rec: KeyRecord) {
    k in s.keys ==> rec.createdAt < s.keys[k].createdAt
  }

  lemma StepSparesIff(s: Store, before: int, c: Call, k: nat, rec: KeyRecord, period: nat)
    requires Good(s, before, period) && before <= c.at && 0 < period && Verifiable(s, k, rec)
    ensures var t := Apply(s, c, period);
            if Spares(s, c, k, period) then Verifiable(t, k, rec) else Gone(t, k, rec) && rec.createdAt < c.at
  {
  }

  lemma {:induction false} GoneStaysGone(s: Store, before: int, calls: seq<Call>, k: nat, rec: KeyRecord, period: nat)
    requires Good(s, before, period) && Gone(s, k, rec) && rec.createdAt < before && s != EMPTY
    requires InOrder(calls) && (calls != [] ==> before <= calls[0].at)
    ensures !Verifiable(Continued(s, calls, period), k, rec)
    decreases |calls|
  {
    if calls != [] {
      StepKeepsGood(s, before, calls[0], period);
      GoneStaysGone(Apply(s, calls[0], period), calls[0].at, calls[1..], k, rec, period);
    }
  }

  /**
   From any point of a run on, a key stays verifiable under its id if and only if every later rotation spares it:
   it is at most three periods old then, and the number of keys does not lead back to its id.
  */
  lemma {:induction false} KeySurvivesIff(s: Store, before: int, calls: seq<Call>, k: nat, period: nat)
    requires Good(s, before, period) && 0 < period && k in s.keys
    requires InOrder(calls) && (calls != [] ==> before <= calls[0].at)
    ensures Verifiable(Continued(s, calls, period), k, s.keys[k]) <==> AllSpare(s, calls, k, period)
    decreases |calls|
  {
    if calls != [] {
      var c, t, rec := calls[0], Apply(s, calls[0], period), s.keys[k];
      StepKeepsGood(s, before, c, period);
      StepSparesIff(s, before, c, k, rec, period);
      if Spares(s, c, k, period) {
        KeySurvivesIff(t, c.at, calls[1..], k, period);
      } else {
        GoneStaysGone(t, c.at, calls[1..], k, rec, period);
      }
    }
  }

  lemma RunSnoc(calls: seq<Call>, c: Call, period: nat)
    ensures Run(calls + [c], period) == Apply(Run(calls, period), c, period)
  {
    assert (calls + [c])[..|calls|] == calls;
  }

  /** Key N created N - 1 periods after the first: the store of the first four keys. */
  function FirstFour(period: nat): map<nat, KeyRecord> {
    map[1 := KeyRecord(1, 0), 2 := KeyRecord(2, period), 3 := KeyRecord(3, 2 * period), 4 := KeyRecord(4, 3 * period)]
  }

  /** The same after the fourth rotation has dropped the oldest key. */
  function LastFour(period: nat): map<nat, KeyRecord> {
    map[2 := KeyRecord(2, period), 3 := KeyRecord(3, 2 * period), 4 := KeyRecord(4, 3 * period),
        5 := KeyRecord(5, 4 * period)]
  }

  /** While every key is recent enough, a rotation only adds a key. */
  lemma RotationAdds(calls: seq<Call>, keys: map<nat, KeyRecord>, period: nat) returns (next: seq<Call>)
    requires InOrder(calls) && calls != [] && keys.Keys != {} && 0 < period
    requires Run(calls, period) == Store(|keys|, keys) && |keys| in keys && |keys| <= 3
    requires forall k :: k in keys ==> 0 <= keys[k].createdAt
    requires keys[|keys|].createdAt == (|keys| - 1) * period == calls[|calls| - 1].at
    ensures var n := |keys| + 1;
            && next == calls + [Rotate((n - 1) * period, n)] && InOrder(next)
            && Run(next, period) == Store(n, keys[n := KeyRecord(n, (n - 1) * period)])
  {
    var n := |keys| + 1;
    var at := (n - 1) * period;
    assert at == (|keys| - 1) * period + period && at - 3 * period <= 0;
    next := calls + [Rotate(at, n)];
    RunSnoc(calls, Rotate(at, n), period);
    var all := keys[n := KeyRecord(n, at)];
    assert Pruned(all, at - 3 * period) == all;
  }

  /** The first key, and a rotation once every period. */
  function Regular(period: nat): seq<Call> {
    [Init(0, 1), Rotate(period, 2), Rotate(2 * period, 3), Rotate(3 * period, 4), Rotate(4 * period, 5)]
  }

  lemma OneKey(period: nat)
    ensures Run([Init(0, 1)], period) == Store(1, map[1 := KeyRecord(1, 0)])
  {
    RunSnoc([], Init(0, 1), period);
    assert [] + [Init(0, 1)] == [Init(0, 1)];
  }

  lemma ThreeKeys(period: nat) returns (calls: seq<Call>)
    requires 0 < period
    ensures calls == [Init(0, 1), Rotate(period, 2), Rotate(2 * period, 3)] && InOrder(calls)
    ensures Run(calls, period) ==
            Store(3, map[1 := KeyRecord(1, 0), 2 := KeyRecord(2, period), 3 := KeyRecord(3, 2 * period)])
  {
    OneKey(period);
    var keys := map[1 := KeyRecord(1, 0)];
    assert keys.Keys == {1} && |keys| == |keys.Keys|;
    calls := RotationAdds([Init(0, 1)], keys, period);
    keys := keys[2 := KeyRecord(2, period)];
    assert keys.Keys == {1, 2} && |keys| == |keys.Keys|;
    calls := RotationAdds(calls, keys, period);
  }

  lemma FourKeys(period: nat) returns (calls: seq<Call>)
    requires 0 < period
    ensures calls == [Init(0, 1), Rotate(period, 2), Rotate(2 * period, 3), Rotate(3 * period, 4)]
    ensures InOrder(calls) && Run(calls, period) == Store(4, FirstFour(period))
  {
    var three := ThreeKeys(period);
    var keys := map[1 := KeyRecord(1, 0), 2 := KeyRecord(2, period), 3 := KeyRecord(3, 2 * period)];
    assert keys.Keys == {1, 2, 3} && |keys| == |keys.Keys|;
    calls := RotationAdds(three, keys, period);
    assert keys[4 := KeyRecord(4, 3 * period)] == FirstFour(period);
  }

  lemma RotationDrops(period: nat)
    requires 0 < period
    ensures Pruned(FirstFour(period)[5 := KeyRecord(5, 4 * period)], period) == LastFour(period)
  {
  }

  lemma FiveKeys(period: nat)
    requires 0 < period
    ensures InOrder(Regular(period)) && Run(Regular(period), period) == Store(5, LastFour(period))
  {
    var four := FourKeys(period);
    var keys := FirstFour(period);
    assert keys.Keys == {1, 2, 3, 4} && |keys| == |keys.Keys|;
    assert Regular(period) == four + [Rotate(4 * period, 5)];
    RunSnoc(four, Rotate(4 * period, 5), period);
    RotationDrops(period);
  }

  /** Rotating once every period, the fifth rotation reuses the id of the fourth and overwrites that key. */
  lemma FifthRotationOverwrites(period: nat)
    requires 0 < period
    ensures InOrder(Regular(period))
    ensures var s := Run(Regular(period), period);
            var t := Rotated(s, 5 * period, period, 6);
            && Due(s, 5 * period, period) && s.keys[s.current].secret == 5
            && t.current == s.current && forall k :: k in t.keys ==> t.keys[k].secret != 5
  {
    FiveKeys(period);
    var keys := LastFour(period);
    assert keys.Keys == {2, 3, 4, 5} && |keys| == |keys.Keys|;
  }
}
