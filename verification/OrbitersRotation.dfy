/** What a storage-wide rotation does, and when the order of the visits matters. */
module OrbitersRotation {
  import opened Xcm
  import opened CollatorPools
  import opened Orbiters

  // ---------- The net effect of one visit on one override ----------

  datatype Write = Keep | Clear | Put(replacement: Option<Account>)

  function NetWrite(pool: Pool, collator: Account, a: Account): Write {
    match NextOrbiter(pool)
    case Some(next) =>
      if a == next then Put(Some(collator))
      else if a == collator then Put(None)
      else if pool.current.Some? && a == pool.current.value.account then Clear
      else Keep
    case None =>
      if a == collator || (pool.current.Some? && a == pool.current.value.account) then Clear else Keep
  }

  function Written(w: Write, before: Option<Option<Account>>): Option<Option<Account>> {
    match w
    case Keep => before
    case Clear => None
    case Put(v) => Some(v)
  }

  /** The last write to `a` when the pools are visited in this order. */
  function LastWrite(pools: map<Account, Pool>, order: seq<Account>, a: Account): Write {
    if order == [] then Keep
    else
      var last := order[|order| - 1];
      var w := if last in pools then NetWrite(pools[last], last, a) else Keep;
      if w != Keep then w else LastWrite(pools, order[..|order| - 1], a)
  }

  // An order of visits: every pool once.
  ghost predicate Visits(s: State, order: seq<Account>) {
    && (forall i, j :: 0 <= i < j < |order| ==> order[i] != order[j])
    && (forall c :: c in order <==> c in s.pools)
  }

  // ---------- The state after visiting some of the pools ----------

  lemma RotateOneOverride(cfg: Config, s: State, round: nat, c: Account, a: Account)
    requires c in s.pools
    ensures Override(RotateOne(cfg, s, round, c), a) == Written(NetWrite(s.pools[c], c, a), Override(s, a))
  {
  }

  lemma {:induction false} RotateLast(cfg: Config, s: State, round: nat, order: seq<Account>, c: Account)
    requires c in s.pools && c !in order
    ensures var t := OnRotate(cfg, s, round, order);
            && c in t.pools && t.pools[c] == s.pools[c]
            && OnRotate(cfg, s, round, order + [c]) == RotateOne(cfg, t, round, c)
    decreases |order|
  {
    if order == [] {
      assert [c][1..] == [];
      assert OnRotate(cfg, RotateOne(cfg, s, round, c), round, []) == RotateOne(cfg, s, round, c);
      assert order + [c] == [c];
    } else {
      assert (order + [c])[1..] == order[1..] + [c];
      var next := if order[0] in s.pools then RotateOne(cfg, s, round, order[0]) else s;
      RotateLast(cfg, next, round, order[1..], c);
    }
  }

  /** What a pool selects, for the rounds it writes: `None` leaves the entry alone. */
  function Selected(cfg: Config, s: State, round: nat, r: nat, c: Account): Option<Account> {
    if c in s.pools && Covers(cfg, round, r) then NextOrbiter(s.pools[c]) else None
  }

  ghost predicate DistinctPools(s: State, order: seq<Account>) {
    && (forall i, j :: 0 <= i < j < |order| ==> order[i] != order[j])
    && (forall c :: c in order ==> c in s.pools)
  }

  function RotatedAmong(pools: map<Account, Pool>, order: seq<Account>): map<Account, Pool> {
    map c | c in pools :: if c in order then Rotate(pools[c]) else pools[c]
  }

  lemma {:induction false} RotationPools(cfg: Config, s: State, round: nat, order: seq<Account>)
    requires DistinctPools(s, order)
    ensures var t := OnRotate(cfg, s, round, order);
            && t == s.(pools := t.pools, overrides := t.overrides, perRound := t.perRound)
            && t.pools == RotatedAmong(s.pools, order)
    decreases |order|
  {
    if order != [] {
      var front, c := order[..|order| - 1], order[|order| - 1];
      assert order == front + [c];
      RotationPools(cfg, s, round, front);
      RotateLast(cfg, s, round, front, c);
      RotatedSoFar(s.pools, front, c);
    }
  }

  lemma RotatedSoFar(pools: map<Account, Pool>, front: seq<Account>, c: Account)
    requires c in pools
    ensures RotatedAmong(pools, front)[c := Rotate(pools[c])] == RotatedAmong(pools, front + [c])
  {
  }

  lemma {:induction false} RotationOverrides(cfg: Config, s: State, round: nat, order: seq<Account>)
    requires DistinctPools(s, order)
    ensures forall a :: Override(OnRotate(cfg, s, round, order), a)
                     == Written(LastWrite(s.pools, order, a), Override(s, a))
    decreases |order|
  {
    if order != [] {
      var front, c := order[..|order| - 1], order[|order| - 1];
      assert order == front + [c];
      RotationOverrides(cfg, s, round, front);
      RotateLast(cfg, s, round, front, c);
      var mid := OnRotate(cfg, s, round, front);
      forall a
        ensures Override(OnRotate(cfg, s, round, order), a) == Written(LastWrite(s.pools, order, a), Override(s, a))
      {
        RotateOneOverride(cfg, mid, round, c, a);
        assert Override(mid, a) == Written(LastWrite(s.pools, front, a), Override(s, a));
      }
    }
  }

  lemma {:induction false} RotationRecords(cfg: Config, s: State, round: nat, order: seq<Account>)
    requires DistinctPools(s, order)
    ensures forall r: nat, c :: OrbiterAt(OnRotate(cfg, s, round, order), r, c)
              == if c in order && Selected(cfg, s, round, r, c).Some? then Selected(cfg, s, round, r, c)
                 else OrbiterAt(s, r, c)
    decreases |order|
  {
    if order != [] {
      var front, c := order[..|order| - 1], order[|order| - 1];
      assert order == front + [c];
      RotationRecords(cfg, s, round, front);
      RotateLast(cfg, s, round, front, c);
      LastVisitFillsRounds(cfg, s, OnRotate(cfg, s, round, front), round, front, c);
    }
  }

  /** The rotation in closed form, for any sequence of distinct pools. */
  lemma RotationInClosedForm(cfg: Config, s: State, round: nat, order: seq<Account>)
    requires DistinctPools(s, order)
    ensures var t := OnRotate(cfg, s, round, order);
            && t == s.(pools := t.pools, overrides := t.overrides, perRound := t.perRound)
            && t.pools == RotatedAmong(s.pools, order)
            && (forall a :: Override(t, a) == Written(LastWrite(s.pools, order, a), Override(s, a)))
            && (forall r: nat, c :: OrbiterAt(t, r, c)
                  == if c in order && Selected(cfg, s, round, r, c).Some? then Selected(cfg, s, round, r, c)
                     else OrbiterAt(s, r, c))
  {
    RotationPools(cfg, s, round, order);
    RotationOverrides(cfg, s, round, order);
    RotationRecords(cfg, s, round, order);
  }

  lemma LastVisitFillsRounds(cfg: Config, s: State, mid: State, round: nat, front: seq<Account>, c: Account)
    requires c in s.pools && c in mid.pools && mid.pools[c] == s.pools[c] && c !in front
    requires forall r: nat, k :: OrbiterAt(mid, r, k)
               == if k in front && Selected(cfg, s, round, r, k).Some? then Selected(cfg, s, round, r, k)
                  else OrbiterAt(s, r, k)
    ensures var t := RotateOne(cfg, mid, round, c);
            forall r: nat, k :: OrbiterAt(t, r, k)
              == if k in front + [c] && Selected(cfg, s, round, r, k).Some? then Selected(cfg, s, round, r, k)
                 else OrbiterAt(s, r, k)
  {
  }

  // ---------- When the order does not matter ----------

  /** No two pools want different values for one account's override. */
  ghost predicate NoConflict(pools: map<Account, Pool>) {
    forall a, c, k :: c in pools && k in pools ==> Agree(NetWrite(pools[c], c, a), NetWrite(pools[k], k, a))
  }

  ghost predicate Agree(w: Write, v: Write) {
    w == Keep || v == Keep || w == v
  }

  lemma {:induction false} LastWriteIsSome(pools: map<Account, Pool>, order: seq<Account>, a: Account)
    requires forall c :: c in order ==> c in pools
    ensures LastWrite(pools, order, a) == Keep ==> forall c :: c in order ==> NetWrite(pools[c], c, a) == Keep
    ensures LastWrite(pools, order, a) != Keep ==>
              exists c :: c in order && NetWrite(pools[c], c, a) == LastWrite(pools, order, a)
  {
    if order != [] {
      var front, last := order[..|order| - 1], order[|order| - 1];
      assert order == front + [last];
      LastWriteIsSome(pools, front, a);
      if NetWrite(pools[last], last, a) == Keep && LastWrite(pools, front, a) != Keep {
        var c :| c in front && NetWrite(pools[c], c, a) == LastWrite(pools, front, a);
        assert c in order;
      } else if NetWrite(pools[last], last, a) != Keep {
        assert last in order;
      }
    }
  }

  /** Without conflicts the last write is the write of any pool that writes at all. */
  lemma LastWriteWithoutConflict(pools: map<Account, Pool>, order: seq<Account>, a: Account, c: Account)
    requires NoConflict(pools) && c in order && forall k :: k in order ==> k in pools
    requires NetWrite(pools[c], c, a) != Keep
    ensures LastWrite(pools, order, a) == NetWrite(pools[c], c, a)
  {
  }

  lemma LastWriteOfVisits(s: State, x: seq<Account>, y: seq<Account>, a: Account)
    requires Visits(s, x) && Visits(s, y) && NoConflict(s.pools)
    ensures LastWrite(s.pools, x, a) == LastWrite(s.pools, y, a)
  {
    LastWriteIsSome(s.pools, x, a);
    LastWriteIsSome(s.pools, y, a);
    if LastWrite(s.pools, x, a) != Keep {
      var c :| c in x && NetWrite(s.pools[c], c, a) == LastWrite(s.pools, x, a);
      LastWriteWithoutConflict(s.pools, y, a, c);
    }
  }

  lemma SameOverrides(t: State, u: State)
    requires forall a :: Override(t, a) == Override(u, a)
    ensures t.overrides == u.overrides
  {
    forall a ensures a in t.overrides <==> a in u.overrides {
      assert Override(t, a) == Override(u, a);
    }
    forall a | a in t.overrides ensures t.overrides[a] == u.overrides[a] {
      assert Override(t, a) == Override(u, a);
    }
  }

  lemma SameRecords(t: State, u: State)
    requires forall r: nat, c :: OrbiterAt(t, r, c) == OrbiterAt(u, r, c)
    ensures t.perRound == u.perRound
  {
    forall k ensures k in t.perRound <==> k in u.perRound {
      assert OrbiterAt(t, k.0, k.1) == OrbiterAt(u, k.0, k.1);
    }
    forall k | k in t.perRound ensures t.perRound[k] == u.perRound[k] {
      assert OrbiterAt(t, k.0, k.1) == OrbiterAt(u, k.0, k.1);
    }
  }

  /** Pools and per-round entries never depend on the order of the visits. */
  lemma PoolsAndRecordsIgnoreOrder(cfg: Config, s: State, round: nat, x: seq<Account>, y: seq<Account>)
    requires Visits(s, x) && Visits(s, y)
    ensures OnRotate(cfg, s, round, x).pools == OnRotate(cfg, s, round, y).pools
    ensures OnRotate(cfg, s, round, x).perRound == OnRotate(cfg, s, round, y).perRound
  {
    RotationInClosedForm(cfg, s, round, x);
    RotationInClosedForm(cfg, s, round, y);
    var t, u := OnRotate(cfg, s, round, x), OnRotate(cfg, s, round, y);
    forall r: nat, c ensures OrbiterAt(t, r, c) == OrbiterAt(u, r, c) {
      assert c in x <==> c in y;
    }
    SameRecords(t, u);
  }

  lemma OrderIgnoredWithoutConflict(cfg: Config, s: State, round: nat, x: seq<Account>, y: seq<Account>)
    requires Visits(s, x) && Visits(s, y) && NoConflict(s.pools)
    ensures OnRotate(cfg, s, round, x) == OnRotate(cfg, s, round, y)
  {
    PoolsAndRecordsIgnoreOrder(cfg, s, round, x, y);
    RotationInClosedForm(cfg, s, round, x);
    RotationInClosedForm(cfg, s, round, y);
    var t, u := OnRotate(cfg, s, round, x), OnRotate(cfg, s, round, y);
    forall a ensures Override(t, a) == Override(u, a) {
      LastWriteOfVisits(s, x, y, a);
    }
    SameOverrides(t, u);
  }

  /** Some order of the visits that ends with `c`. */
  ghost function EndingWith(keys: set<Account>, c: Account): (order: seq<Account>)
    requires c in keys
    ensures order != [] && order[|order| - 1] == c
    ensures forall k :: k in order <==> k in keys
    ensures forall i, j :: 0 <= i < j < |order| ==> order[i] != order[j]
    decreases |keys|
  {
    var rest := keys - {c};
    assert forall k :: k in keys ==> k in rest || k == c;
    if rest == {} then [c]
    else
      var k :| k in rest;
      EndingWith(rest, k) + [c]
  }

  lemma ConflictMakesOrderVisible(cfg: Config, s: State, round: nat, a: Account, c: Account, k: Account)
    requires c in s.pools && k in s.pools
    requires !Agree(NetWrite(s.pools[c], c, a), NetWrite(s.pools[k], k, a))
    ensures var x, y := EndingWith(s.pools.Keys, c), EndingWith(s.pools.Keys, k);
            && Visits(s, x) && Visits(s, y)
            && Override(OnRotate(cfg, s, round, x), a) != Override(OnRotate(cfg, s, round, y), a)
  {
    RotationInClosedForm(cfg, s, round, EndingWith(s.pools.Keys, c));
    RotationInClosedForm(cfg, s, round, EndingWith(s.pools.Keys, k));
  }

  /** The rotation is independent of the order of the visits exactly when no two pools conflict. */
  lemma OrderIrrelevantExactly(cfg: Config, s: State, round: nat)
    ensures (forall x, y :: Visits(s, x) && Visits(s, y) ==> OnRotate(cfg, s, round, x) == OnRotate(cfg, s, round, y))
       <==> NoConflict(s.pools)
  {
    if NoConflict(s.pools) {
      forall x, y | Visits(s, x) && Visits(s, y) ensures OnRotate(cfg, s, round, x) == OnRotate(cfg, s, round, y) {
        OrderIgnoredWithoutConflict(cfg, s, round, x, y);
      }
    } else {
      var a, c, k :| c in s.pools && k in s.pools && !Agree(NetWrite(s.pools[c], c, a), NetWrite(s.pools[k], k, a));
      ConflictMakesOrderVisible(cfg, s, round, a, c, k);
    }
  }

  // ---------- Disjoint pools ----------

  /** Every account is in at most one pool, and no collator is an orbiter. */
  ghost predicate Disjoint(pools: map<Account, Pool>) {
    && (forall c, k, a :: c in pools && k in pools && pools[c].Contains(a) && pools[k].Contains(a) ==> c == k)
    && (forall c, k :: c in pools && k in pools ==> !pools[c].Contains(k))
  }

  /** A visit writes only to the collator and to accounts its pool contains. */
  lemma WritesAreLocal(pool: Pool, c: Account, a: Account)
    ensures NetWrite(pool, c, a) != Keep ==> a == c || pool.Contains(a)
  {
  }

  lemma DisjointHasNoConflict(pools: map<Account, Pool>)
    requires Disjoint(pools)
    ensures NoConflict(pools)
  {
    forall a, c, k | c in pools && k in pools
      ensures Agree(NetWrite(pools[c], c, a), NetWrite(pools[k], k, a))
    {
      WritesAreLocal(pools[c], c, a);
      WritesAreLocal(pools[k], k, a);
    }
  }

  /** With disjoint pools any two orders of the visits give the same state. */
  lemma DisjointRotationIgnoresOrder(cfg: Config, s: State, round: nat, x: seq<Account>, y: seq<Account>)
    requires Disjoint(s.pools) && Visits(s, x) && Visits(s, y)
    ensures OnRotate(cfg, s, round, x) == OnRotate(cfg, s, round, y)
  {
    DisjointHasNoConflict(s.pools);
    OrderIgnoredWithoutConflict(cfg, s, round, x, y);
  }
}
