/** The scheduled recovery pass: of one store's stale claims the oldest, at most a batch, locked rows skipped. */
module RecoveryPass {
  import opened Basics
  import opened DeliveryStore
  import opened Protocol

  const BATCH := 100

  /** The rows' primary keys, which break ties between claims of the same moment. */
  type Ids = Key -> nat

  ghost predicate DistinctIds(keys: set<Key>, ids: Ids) {
    forall a, b :: a in keys && b in keys && ids(a) == ids(b) ==> a == b
  }

  function StaleKeys(rows: map<Key, Row>, kind: Kind, now: int): set<Key> {
    set key | key in rows && key.kind == kind && IsStale(rows[key], now - STALE + 1)
  }

  function ClaimTime(rows: map<Key, Row>, key: Key): int {
    if key in rows && rows[key].claimedAt.Some? then rows[key].claimedAt.value else 0
  }

  /** Claimed earlier, or at the same moment with a smaller primary key. */
  predicate Before(rows: map<Key, Row>, ids: Ids, a: Key, b: Key) {
    ClaimTime(rows, a) < ClaimTime(rows, b) || (ClaimTime(rows, a) == ClaimTime(rows, b) && ids(a) < ids(b))
  }

  ghost predicate IsOldest(rows: map<Key, Row>, ids: Ids, keys: set<Key>, key: Key) {
    key in keys && forall j :: j in keys && j != key ==> Before(rows, ids, key, j)
  }

  lemma {:induction false} SomeIsOldest(rows: map<Key, Row>, ids: Ids, keys: set<Key>)
    requires keys != {} && DistinctIds(keys, ids)
    ensures exists key :: IsOldest(rows, ids, keys, key)
  {
    var x :| x in keys;
    if keys == {x} {
      assert IsOldest(rows, ids, keys, x);
    } else {
      var rest := keys - {x};
      assert rest == {} ==> keys == {x};
      SomeIsOldest(rows, ids, rest);
      var y :| IsOldest(rows, ids, rest, y);
      forall j | j in keys ensures j in rest || j == x {
      }
      if Before(rows, ids, x, y) {
        assert forall j :: j in rest && j != y ==> Before(rows, ids, y, j);
        assert IsOldest(rows, ids, keys, x);
      } else {
        assert ids(x) != ids(y);
        assert IsOldest(rows, ids, keys, y);
      }
    }
  }

  ghost function Oldest(rows: map<Key, Row>, ids: Ids, keys: set<Key>): (key: Key)
    requires keys != {} && DistinctIds(keys, ids)
    ensures IsOldest(rows, ids, keys, key)
  {
    SomeIsOldest(rows, ids, keys);
    var key :| IsOldest(rows, ids, keys, key);
    key
  }

  /** `ORDER BY claimed_at, id LIMIT n`: take the oldest, and again. */
  ghost function Take(rows: map<Key, Row>, ids: Ids, keys: set<Key>, n: nat): set<Key>
    requires DistinctIds(keys, ids)
  {
    if n == 0 || keys == {} then {}
    else
      var oldest := Oldest(rows, ids, keys);
      {oldest} + Take(rows, ids, keys - {oldest}, n - 1)
  }

  function Ahead(rows: map<Key, Row>, ids: Ids, keys: set<Key>, key: Key): set<Key> {
    set j | j in keys && Before(rows, ids, j, key)
  }

  lemma OneFewerAhead(rows: map<Key, Row>, ids: Ids, keys: set<Key>, oldest: Key, key: Key)
    requires IsOldest(rows, ids, keys, oldest) && key in keys
    ensures if key == oldest then Ahead(rows, ids, keys, key) == {}
            else |Ahead(rows, ids, keys, key)| == |Ahead(rows, ids, keys - {oldest}, key)| + 1
  {
    if key != oldest {
      assert Ahead(rows, ids, keys, key) == Ahead(rows, ids, keys - {oldest}, key) + {oldest};
    }
  }

  lemma TakeOne(rows: map<Key, Row>, ids: Ids, keys: set<Key>, oldest: Key, taken: set<Key>, n: nat, key: Key)
    requires IsOldest(rows, ids, keys, oldest) && key in keys && n > 0
    requires key != oldest ==> (key in taken <==> |Ahead(rows, ids, keys - {oldest}, key)| < n - 1)
    ensures key in {oldest} + taken <==> |Ahead(rows, ids, keys, key)| < n
  {
    OneFewerAhead(rows, ids, keys, oldest, key);
  }

  lemma {:induction false} TakeFits(rows: map<Key, Row>, ids: Ids, keys: set<Key>, n: nat)
    requires DistinctIds(keys, ids)
    ensures Take(rows, ids, keys, n) <= keys
    ensures |Take(rows, ids, keys, n)| == if |keys| <= n then |keys| else n
  {
    if n != 0 && keys != {} {
      var oldest := Oldest(rows, ids, keys);
      TakeFits(rows, ids, keys - {oldest}, n - 1);
    }
  }

  /** Taking again and again picks exactly the keys with fewer than `n` ahead of them. */
  lemma {:induction false} TakeIsOldest(rows: map<Key, Row>, ids: Ids, keys: set<Key>, n: nat, key: Key)
    requires DistinctIds(keys, ids) && key in keys
    ensures key in Take(rows, ids, keys, n) <==> |Ahead(rows, ids, keys, key)| < n
  {
    if n != 0 {
      var oldest := Oldest(rows, ids, keys);
      if key != oldest {
        TakeIsOldest(rows, ids, keys - {oldest}, n - 1, key);
      }
      TakeOne(rows, ids, keys, oldest, Take(rows, ids, keys - {oldest}, n - 1), n, key);
    }
  }

  /** The rows a pass picks when others hold locks on `locked`. */
  ghost function Picked(rows: map<Key, Row>, ids: Ids, kind: Kind, now: int, locked: set<Key>, batch: nat): set<Key>
    requires DistinctIds(StaleKeys(rows, kind, now), ids)
  {
    Take(rows, ids, StaleKeys(rows, kind, now) - locked, batch)
  }

  lemma FreeIsStale(rows: map<Key, Row>, kind: Kind, now: int, locked: set<Key>)
    ensures StaleKeys(rows, kind, now) - locked
         == set k | k in rows && k.kind == kind && k !in locked && rows[k].status.Sending?
                    && rows[k].claimedAt.Some? && now - rows[k].claimedAt.value >= 300
  {
  }

  /**
   * One pass clears a row if and only if it is of its store, has been sending for five minutes or more, is not locked,
   * and fewer than a batch of such rows were claimed before it, or with it under a smaller primary key; it touches
   * nothing else.
   */
  lemma PassClearsExactly(
    rows: map<Key, Row>, ids: Ids, kind: Kind, now: int, locked: set<Key>, batch: nat, key: Key)
    requires DistinctIds(StaleKeys(rows, kind, now), ids) && key in rows
    ensures var free := set k | k in rows && k.kind == kind && k !in locked && rows[k].status.Sending?
                                && rows[k].claimedAt.Some? && now - rows[k].claimedAt.value >= 300;
            var rows' := Recovered(rows, Picked(rows, ids, kind, now, locked, batch), now);
            if key in free
               && |set j | j in free
                           && (|| rows[j].claimedAt.value < rows[key].claimedAt.value
                               || (rows[j].claimedAt == rows[key].claimedAt && ids(j) < ids(key)))| < batch
            then rows'[key] == rows[key].(status := Uncertain)
            else rows'[key] == rows[key]
  {
    FreeIsStale(rows, kind, now, locked);
    var free := StaleKeys(rows, kind, now) - locked;
    TakeFits(rows, ids, free, batch);
    if key in free {
      TakeIsOldest(rows, ids, free, batch, key);
      assert Ahead(rows, ids, free, key)
          == set j | j in free
                     && (|| rows[j].claimedAt.value < rows[key].claimedAt.value
                         || (rows[j].claimedAt == rows[key].claimedAt && ids(j) < ids(key)));
    }
  }

  /** A pass leaves exactly the stale rows it did not pick. */
  lemma PassLeavesRest(rows: map<Key, Row>, ids: Ids, kind: Kind, now: int, locked: set<Key>, batch: nat)
    requires DistinctIds(StaleKeys(rows, kind, now), ids)
    ensures var picked := Picked(rows, ids, kind, now, locked, batch);
            var rows' := Recovered(rows, picked, now);
            && picked <= StaleKeys(rows, kind, now)
            && StaleKeys(rows', kind, now) == StaleKeys(rows, kind, now) - picked
            && rows'.Keys == rows.Keys
  {
    TakeFits(rows, ids, StaleKeys(rows, kind, now) - locked, batch);
  }

  /** One pass after the other, with nothing locked and no new stale claims between them. */
  ghost function Passes(rows: map<Key, Row>, ids: Ids, kind: Kind, now: int, batch: nat, n: nat): map<Key, Row>
    requires DistinctIds(StaleKeys(rows, kind, now), ids)
    decreases n
  {
    if n == 0 then rows
    else
      PassLeavesRest(rows, ids, kind, now, {}, batch);
      Passes(Recovered(rows, Picked(rows, ids, kind, now, {}, batch), now), ids, kind, now, batch, n - 1)
  }

  lemma PassCounts(rows: map<Key, Row>, ids: Ids, kind: Kind, now: int, batch: nat)
    requires DistinctIds(StaleKeys(rows, kind, now), ids)
    ensures var stale := StaleKeys(rows, kind, now);
            var rows' := Recovered(rows, Picked(rows, ids, kind, now, {}, batch), now);
            |StaleKeys(rows', kind, now)| == if |stale| <= batch then 0 else |stale| - batch
  {
    var stale := StaleKeys(rows, kind, now);
    var picked := Picked(rows, ids, kind, now, {}, batch);
    PassLeavesRest(rows, ids, kind, now, {}, batch);
    assert stale - {} == stale;
    TakeFits(rows, ids, stale, batch);
    assert stale == (stale - picked) + picked;
  }

  /** How many rows fit into `n` batches. */
  function Fitting(n: nat, batch: nat): nat {
    if n == 0 then 0 else batch + Fitting(n - 1, batch)
  }

  lemma {:induction false} FittingIsProduct(n: nat, batch: nat)
    ensures Fitting(n, batch) == n * batch
  {
    if n > 0 {
      FittingIsProduct(n - 1, batch);
      assert n * batch == batch + (n - 1) * batch;
    }
  }

  /** The rows after exactly those of `gone` have become uncertain. */
  ghost predicate Cleared(rows: map<Key, Row>, rows': map<Key, Row>, gone: set<Key>) {
    && rows'.Keys == rows.Keys
    && forall key :: key in rows ==>
         rows'[key] == if key in gone then rows[key].(status := Uncertain) else rows[key]
  }

  lemma OneThenRest(rows: map<Key, Row>, next: map<Key, Row>, last: map<Key, Row>, first: set<Key>, then_: set<Key>)
    requires Cleared(rows, next, first) && Cleared(next, last, then_) && first !! then_
    ensures Cleared(rows, last, first + then_)
  {
  }

  lemma NothingCleared(rows: map<Key, Row>, stale: set<Key>)
    ensures Cleared(rows, rows, stale - stale)
  {
  }

  lemma PassIs(rows: map<Key, Row>, ids: Ids, kind: Kind, now: int, batch: nat)
    requires DistinctIds(StaleKeys(rows, kind, now), ids)
    ensures var picked := Picked(rows, ids, kind, now, {}, batch);
            Cleared(rows, Recovered(rows, picked, now), picked)
  {
    TakeFits(rows, ids, StaleKeys(rows, kind, now) - {}, batch);
  }

  lemma JoinPasses(rows: map<Key, Row>, next: map<Key, Row>, last: map<Key, Row>, before: set<Key>, picked: set<Key>,
                   left: set<Key>, after: set<Key>, batch: nat, more: nat)
    requires picked <= before && left == before - picked && after <= left
    requires Cleared(rows, next, picked) && Cleared(next, last, left - after)
    requires |left| == if |before| <= batch then 0 else |before| - batch
    requires |after| == if |left| <= more then 0 else |left| - more
    ensures after <= before && Cleared(rows, last, before - after)
    ensures |after| == if |before| <= batch + more then 0 else |before| - (batch + more)
  {
    OneThenRest(rows, next, last, picked, left - after);
    assert picked + (left - after) == before - after;
  }

  /** The first of some passes. */
  lemma FirstPass(rows: map<Key, Row>, ids: Ids, kind: Kind, now: int, batch: nat, n: nat, before: set<Key>)
    returns (next: map<Key, Row>, picked: set<Key>, left: set<Key>)
    requires n > 0 && before == StaleKeys(rows, kind, now) && DistinctIds(before, ids)
    ensures left == StaleKeys(next, kind, now) && DistinctIds(left, ids)
    ensures Passes(rows, ids, kind, now, batch, n) == Passes(next, ids, kind, now, batch, n - 1)
    ensures picked <= before && left == before - picked && Cleared(rows, next, picked)
    ensures |left| == if |before| <= batch then 0 else |before| - batch
  {
    picked := Picked(rows, ids, kind, now, {}, batch);
    next := Recovered(rows, picked, now);
    left := StaleKeys(next, kind, now);
    PassLeavesRest(rows, ids, kind, now, {}, batch);
    PassCounts(rows, ids, kind, now, batch);
    PassIs(rows, ids, kind, now, batch);
  }

  /** What fits is cleared; what is left over is the rest. */
  ghost predicate FitCleared(rows: map<Key, Row>, last: map<Key, Row>, before: set<Key>, after: set<Key>, fit: nat) {
    && after <= before && Cleared(rows, last, before - after)
    && |after| == if |before| <= fit then 0 else |before| - fit
  }

  lemma FitsFirst(rows: map<Key, Row>, next: map<Key, Row>, last: map<Key, Row>, before: set<Key>, picked: set<Key>,
                  left: set<Key>, after: set<Key>, batch: nat, more: nat)
    requires picked <= before && left == before - picked && Cleared(rows, next, picked)
    requires |left| == if |before| <= batch then 0 else |before| - batch
    requires FitCleared(next, last, left, after, more)
    ensures FitCleared(rows, last, before, after, batch + more)
  {
    JoinPasses(rows, next, last, before, picked, left, after, batch, more);
  }

  lemma FitsNothing(rows: map<Key, Row>, before: set<Key>)
    ensures FitCleared(rows, rows, before, before, 0)
  {
    NothingCleared(rows, before);
  }

  lemma {:induction false} PassesFit(
    rows: map<Key, Row>, ids: Ids, kind: Kind, now: int, batch: nat, n: nat, before: set<Key>)
    returns (last: map<Key, Row>, after: set<Key>)
    requires before == StaleKeys(rows, kind, now) && DistinctIds(before, ids)
    ensures last == Passes(rows, ids, kind, now, batch, n) && after == StaleKeys(last, kind, now)
    ensures FitCleared(rows, last, before, after, Fitting(n, batch))
    decreases n
  {
    if n == 0 {
      last, after := rows, before;
      FitsNothing(rows, before);
    } else {
      var next, picked, left := FirstPass(rows, ids, kind, now, batch, n, before);
      last, after := PassesFit(next, ids, kind, now, batch, n - 1, left);
      FitsFirst(rows, next, last, before, picked, left, after, batch, Fitting(n - 1, batch));
    }
  }

  /** What `n` passes leave stale is what did not fit into `n` batches; everything else stale has become uncertain. */
  lemma PassesClear(rows: map<Key, Row>, ids: Ids, kind: Kind, now: int, batch: nat, n: nat)
    requires DistinctIds(StaleKeys(rows, kind, now), ids)
    ensures var before, rows' := StaleKeys(rows, kind, now), Passes(rows, ids, kind, now, batch, n);
            var after := StaleKeys(rows', kind, now);
            && rows'.Keys == rows.Keys && after <= before
            && |after| == (if |before| <= n * batch then 0 else |before| - n * batch)
            && forall key :: key in rows ==>
                 rows'[key] == if key in before - after then rows[key].(status := Uncertain) else rows[key]
  {
    var last, after := PassesFit(rows, ids, kind, now, batch, n, StaleKeys(rows, kind, now));
    FittingIsProduct(n, batch);
  }
}
