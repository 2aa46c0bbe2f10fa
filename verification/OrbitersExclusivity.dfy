/** Exclusive authoring: at most one account resolves to a collator. What each call needs for it, exactly. */
module OrbitersExclusivity {
  import opened Xcm
  import opened CollatorPools
  import opened Orbiters
  import opened OrbitersRotation
  import opened OrbitersRuns

  // ---------- Where a visit sequence writes last ----------

  /** The last visit that writes at all decides, and nothing after it writes. */
  lemma {:induction false} LastWriter(pools: map<Account, Pool>, order: seq<Account>, a: Account)
    returns (pre: seq<Account>, c: Account, post: seq<Account>)
    requires LastWrite(pools, order, a) != Keep && forall k :: k in order ==> k in pools
    ensures order == pre + [c] + post && c in pools
    ensures NetWrite(pools[c], c, a) == LastWrite(pools, order, a)
    ensures forall k :: k in post ==> k in pools && NetWrite(pools[k], k, a) == Keep
    decreases |order|
  {
    var front, last := order[..|order| - 1], order[|order| - 1];
    assert order == front + [last] && last in order;
    if NetWrite(pools[last], last, a) != Keep {
      pre, c, post := front, last, [];
    } else {
      var rest;
      pre, c, rest := LastWriter(pools, front, a);
      post := rest + [last];
      assert pre + [c] + post == (pre + [c] + rest) + [last];
    }
  }

  lemma {:induction false} LastWriteStands(pools: map<Account, Pool>, front: seq<Account>, post: seq<Account>,
                                           a: Account)
    requires forall k :: k in post ==> k in pools && NetWrite(pools[k], k, a) == Keep
    ensures LastWrite(pools, front + post, a) == LastWrite(pools, front, a)
    decreases |post|
  {
    if post == [] {
      assert front + post == front;
    } else {
      var rest, last := post[..|post| - 1], post[|post| - 1];
      assert post == rest + [last] && last in post;
      assert (front + post)[..|front + post| - 1] == front + rest;
      LastWriteStands(pools, front, rest, a);
    }
  }

  lemma LastWriteOfLast(pools: map<Account, Pool>, pre: seq<Account>, c: Account, a: Account)
    requires c in pools && NetWrite(pools[c], c, a) != Keep
    ensures LastWrite(pools, pre + [c], a) == NetWrite(pools[c], c, a)
  {
  }

  // ---------- When a rotation keeps rights exclusive ----------

  /** If the visit of `j` writes to the collator `c`, it also writes to the orbiter `c` is about to appoint, so
      the appointment does not outlive the collator's own override when `j` is visited later. */
  predicate AppointmentStands(pools: map<Account, Pool>, c: Account, j: Account)
    requires c in pools && j in pools
  {
    match NextOrbiter(pools[c])
    case None => true
    case Some(a) => NetWrite(pools[j], j, c) == Keep || NetWrite(pools[j], j, a) != Keep
  }

  /** No collator is due next in its own pool, and every appointment stands against every other pool. */
  ghost predicate Kept(pools: map<Account, Pool>) {
    && (forall c :: c in pools ==> NextOrbiter(pools[c]) != Some(c))
    && (forall c, j :: c in pools && j in pools && c != j ==> AppointmentStands(pools, c, j))
  }

  /** An override to a collator that survives a rotation was written by it: the collator's own visit writes
      to its current orbiter. */
  lemma NoStaleOverride(s: State, order: seq<Account>, a: Account, c: Account)
    requires Granted(s) && Visits(s, order) && Written(LastWrite(s.pools, order, a), Override(s, a)) == Some(Some(c))
    ensures LastWrite(s.pools, order, a) == Put(Some(c))
  {
    if LastWrite(s.pools, order, a) == Keep {
      LastWriteIsSome(s.pools, order, a);
      assert Override(s, a) == Some(Some(c));
      OwnVisitWrites(s.pools[c], c, a);
    }
  }

  lemma OwnVisitWrites(pool: Pool, c: Account, a: Account)
    ensures pool.current.Some? && pool.current.value.account == a ==> NetWrite(pool, c, a) != Keep
    ensures NetWrite(pool, c, c) != Keep
  {
  }

  lemma AppointedIsGranted(s: State, order: seq<Account>, a: Account, c: Account)
    requires Kept(s.pools) && Visits(s, order) && LastWrite(s.pools, order, a) == Put(Some(c))
    ensures c in s.pools && NextOrbiter(s.pools[c]) == Some(a)
    ensures LastWrite(s.pools, order, c) == Put(None)
  {
    var pre, k, post := LastWriter(s.pools, order, a);
    assert k == c && NextOrbiter(s.pools[c]) == Some(a);
    LaterVisitsKeep(s, order, pre, c, post, a);
    LastWriteStands(s.pools, pre + [c], post, c);
    LastWriteOfLast(s.pools, pre, c, c);
  }

  /** The visits after the one that appoints `a` do not write to `a`, so they leave the collator alone too. */
  lemma LaterVisitsKeep(s: State, order: seq<Account>, pre: seq<Account>, c: Account, post: seq<Account>, a: Account)
    requires Kept(s.pools) && Visits(s, order) && order == pre + [c] + post
    requires c in s.pools && NextOrbiter(s.pools[c]) == Some(a)
    requires forall j :: j in post ==> j in s.pools && NetWrite(s.pools[j], j, a) == Keep
    ensures forall j :: j in post ==> j in s.pools && NetWrite(s.pools[j], j, c) == Keep
  {
    forall j | j in post ensures j in s.pools && NetWrite(s.pools[j], j, c) == Keep {
      NotVisitedAgain(order, pre, c, post, j);
      assert AppointmentStands(s.pools, c, j);
    }
  }

  lemma NotVisitedAgain(order: seq<Account>, pre: seq<Account>, c: Account, post: seq<Account>, j: Account)
    requires order == pre + [c] + post && j in post
    requires forall i, n :: 0 <= i < n < |order| ==> order[i] != order[n]
    ensures j != c
  {
    var i :| 0 <= i < |post| && post[i] == j;
    assert order[|pre|] == c && order[|pre| + 1 + i] == j;
  }

  lemma KeptGrantsOne(cfg: Config, s: State, round: nat, order: seq<Account>, a: Account, c: Account)
    requires Granted(s) && Kept(s.pools) && Visits(s, order)
    ensures var t := OnRotate(cfg, s, round, order);
            Override(t, a) == Some(Some(c)) ==>
              Current(t, c).Some? && Current(t, c).value.account == a && Override(t, c) == Some(None)
  {
    if Override(OnRotate(cfg, s, round, order), a) == Some(Some(c)) {
      RotationOverrides(cfg, s, round, order);
      RotationPools(cfg, s, round, order);
      NoStaleOverride(s, order, a, c);
      AppointedIsGranted(s, order, a, c);
    }
  }

  lemma KeptKeepsGranted(cfg: Config, s: State, round: nat, order: seq<Account>)
    requires Granted(s) && Kept(s.pools) && Visits(s, order)
    ensures Granted(OnRotate(cfg, s, round, order))
  {
    forall a: Account, c: Account {
      KeptGrantsOne(cfg, s, round, order, a, c);
    }
  }

  /** A collator due next in its own pool gets an override to itself when its pool is visited last. */
  lemma SelfAppointment(cfg: Config, s: State, round: nat, c: Account)
    requires c in s.pools && NextOrbiter(s.pools[c]) == Some(c)
    ensures var x := EndingWith(s.pools.Keys, c);
            Visits(s, x) && !Granted(OnRotate(cfg, s, round, x))
  {
    var x := EndingWith(s.pools.Keys, c);
    RotationInClosedForm(cfg, s, round, x);
    assert Override(OnRotate(cfg, s, round, x), c) == Some(Some(c));
  }

  /** Some order of the visits that ends with `c`, then `j`. */
  ghost function EndingWithBoth(keys: set<Account>, c: Account, j: Account): (order: seq<Account>)
    requires c in keys && j in keys && c != j
    ensures |order| >= 2 && order[|order| - 1] == j && order[|order| - 2] == c
    ensures forall k :: k in order <==> k in keys
    ensures forall i, n :: 0 <= i < n < |order| ==> order[i] != order[n]
  {
    var front := EndingWith(keys - {j}, c);
    assert forall k :: k in front + [j] <==> k in front || k == j;
    front + [j]
  }

  /** A pool that writes to the collator but not to its new orbiter, visited right after it. */
  lemma OverwrittenAppointment(cfg: Config, s: State, round: nat, c: Account, j: Account, a: Account)
    requires c in s.pools && j in s.pools && c != j && NextOrbiter(s.pools[c]) == Some(a)
    requires NetWrite(s.pools[j], j, c) != Keep && NetWrite(s.pools[j], j, a) == Keep
    ensures var x := EndingWithBoth(s.pools.Keys, c, j);
            Visits(s, x) && !Granted(OnRotate(cfg, s, round, x))
  {
    var x := EndingWithBoth(s.pools.Keys, c, j);
    RotationOverrides(cfg, s, round, x);
    LastTwoWrites(s.pools, x, c, j, a);
    var t := OnRotate(cfg, s, round, x);
    assert Override(t, a) == Some(Some(c)) && Override(t, c) != Some(None);
  }

  lemma LastTwoWrites(pools: map<Account, Pool>, order: seq<Account>, c: Account, j: Account, a: Account)
    requires |order| >= 2 && order[|order| - 1] == j && order[|order| - 2] == c
    requires c in pools && j in pools && c != j && NextOrbiter(pools[c]) == Some(a)
    requires NetWrite(pools[j], j, c) != Keep && NetWrite(pools[j], j, a) == Keep
    ensures LastWrite(pools, order, a) == Put(Some(c))
    ensures LastWrite(pools, order, c) == NetWrite(pools[j], j, c) != Put(None)
  {
    var front := order[..|order| - 1];
    assert front[|front| - 1] == c;
    assert LastWrite(pools, front, a) == Put(Some(c));
  }

  /** From granted rights, a rotation leaves granted rights in every order of the visits exactly when `Kept`
      holds of the pools. */
  lemma RotationKeepsGrantedExactly(cfg: Config, s: State, round: nat)
    requires Granted(s)
    ensures (forall x :: Visits(s, x) ==> Granted(OnRotate(cfg, s, round, x))) <==> Kept(s.pools)
  {
    if Kept(s.pools) {
      forall x | Visits(s, x) ensures Granted(OnRotate(cfg, s, round, x)) {
        KeptKeepsGranted(cfg, s, round, x);
      }
    } else if c :| c in s.pools && NextOrbiter(s.pools[c]) == Some(c) {
      SelfAppointment(cfg, s, round, c);
    } else {
      var c, j :| c in s.pools && j in s.pools && c != j && !AppointmentStands(s.pools, c, j);
      OverwrittenAppointment(cfg, s, round, c, j, NextOrbiter(s.pools[c]).value);
    }
  }

  // ---------- When the other calls do ----------

  /** Removing a collator clears its override and those of the vector: with the collator's own, or another
      collator's in the vector, go the overrides to it. */
  ghost predicate ClearsTogether(s: State, c: Account)
    requires c in s.pools
  {
    forall a: Account, k: Account ::
      Override(s, a) == Some(Some(k)) && (k == c || k in s.pools[c].orbiters) ==> a == c || a in s.pools[c].orbiters
  }

  lemma RemovalKeepsGrantedExactly(s: State, c: Account)
    requires Granted(s) && c in s.pools
    ensures Granted(RemoveCollator(s, c).0) <==> ClearsTogether(s, c)
  {
    var t, members := RemoveCollator(s, c).0, s.pools[c].orbiters;
    forall a ensures Override(t, a) == if a == c || a in members then None else Override(s, a) {}
    forall k ensures Current(t, k) == if k == c then None else Current(s, k) {}
    if !ClearsTogether(s, c) {
      var a: Account, k: Account :|
        Override(s, a) == Some(Some(k)) && (k == c || k in members) && a != c && a !in members;
      assert Override(t, a) == Some(Some(k)) && Override(t, k) == None;
    }
  }

  /** Joining, leaving and enrolling need nothing. */
  lemma PoolCallsKeepGranted(cfg: Config, s: State, call: Call)
    requires cfg.rotatePeriod > 0 && Granted(s)
    requires call.CollatorAdds? || call.OrbiterLeaves? || call.CollatorEnrolled?
    ensures Granted(Apply(cfg, s, call))
  {
    PoolCallsKeepCurrent(cfg, s, call);
    var t := Apply(cfg, s, call);
    forall a ensures Override(t, a) == Override(s, a) {}
  }

  /** What each call needs, in terms of the state before it. */
  ghost predicate Safe(cfg: Config, s: State, call: Call)
    requires cfg.rotatePeriod > 0
  {
    match call
    case NewRound(round, _) => Rotates(cfg, s, round) ==> Kept(s.pools)
    case CollatorRemoved(c) => c in s.pools ==> ClearsTogether(s, c)
    case _ => true
  }

  ghost predicate SafeRun(cfg: Config, s: State, calls: seq<Call>)
    requires cfg.rotatePeriod > 0
    decreases |calls|
  {
    calls == [] ||
      (Safe(cfg, s, calls[0]) && WellFormed(s, calls[0]) && SafeRun(cfg, Apply(cfg, s, calls[0]), calls[1..]))
  }

  lemma SameRights(s: State, t: State)
    requires Granted(s) && t.pools == s.pools && t.overrides == s.overrides
    ensures Granted(t)
  {
    forall a ensures Override(t, a) == Override(s, a) && Current(t, a) == Current(s, a) {}
  }

  lemma NewRoundKeepsGranted(cfg: Config, s: State, round: nat, order: seq<Account>)
    requires cfg.rotatePeriod > 0 && Granted(s) && Visits(s, order) && (Rotates(cfg, s, round) ==> Kept(s.pools))
    ensures Granted(OnNewRound(cfg, s, round, order))
  {
    var u := s.(currentRound := round);
    SameRights(s, u);
    if Rotates(cfg, s, round) {
      SameRights(s, u.(forceRotation := false));
      KeptKeepsGranted(cfg, u.(forceRotation := false), round, order);
    }
  }

  lemma StepKeepsGranted(cfg: Config, s: State, call: Call)
    requires cfg.rotatePeriod > 0 && Granted(s) && Safe(cfg, s, call) && WellFormed(s, call)
    ensures Granted(Apply(cfg, s, call))
  {
    if call.NewRound? {
      NewRoundKeepsGranted(cfg, s, call.round, call.order);
    } else if call.CollatorRemoved? {
      if call.collator in s.pools { RemovalKeepsGrantedExactly(s, call.collator); }
    } else if call.CollatorAdds? || call.OrbiterLeaves? || call.CollatorEnrolled? {
      PoolCallsKeepGranted(cfg, s, call);
    } else {
      RightsUntouched(cfg, s, call);
      SameRights(s, Apply(cfg, s, call));
    }
  }

  lemma {:induction false} RunKeepsGranted(cfg: Config, s: State, calls: seq<Call>)
    requires cfg.rotatePeriod > 0 && Granted(s) && SafeRun(cfg, s, calls)
    ensures Granted(Run(cfg, s, calls))
    decreases |calls|
  {
    if calls != [] {
      StepKeepsGranted(cfg, s, calls[0]);
      RunKeepsGranted(cfg, Apply(cfg, s, calls[0]), calls[1..]);
    }
  }

  /** After every safe run at most one account resolves to a collator: its current orbiter, or the collator
      itself, and the collator resolves to nobody while its orbiter authors. */
  lemma AuthoringIsExclusive(cfg: Config, minDeposit: nat, calls: seq<Call>, c: Account)
    requires cfg.rotatePeriod > 0 && SafeRun(cfg, Genesis(minDeposit), calls)
    ensures var s := Run(cfg, Genesis(minDeposit), calls);
            && (forall a, b :: Resolve(s, a) == Some(c) && Resolve(s, b) == Some(c) ==> a == b)
            && (forall a :: Resolve(s, a) == Some(c) ==>
                  a == c || (Current(s, c).Some? && a == Current(s, c).value.account && Resolve(s, c) == None))
  {
    RunKeepsGranted(cfg, Genesis(minDeposit), calls);
    GrantedIsExclusive(Run(cfg, Genesis(minDeposit), calls), c);
  }

  lemma GrantedIsExclusive(s: State, c: Account)
    requires Granted(s)
    ensures forall a, b :: Resolve(s, a) == Some(c) && Resolve(s, b) == Some(c) ==> a == b
    ensures forall a :: Resolve(s, a) == Some(c) ==>
              a == c || (Current(s, c).Some? && a == Current(s, c).value.account && Resolve(s, c) == None)
  {
    forall a | Resolve(s, a) == Some(c)
      ensures if Override(s, c) == Some(None) then Current(s, c).Some? && a == Current(s, c).value.account else a == c
    {
      if Override(s, a).Some? { assert Override(s, a) == Some(Some(c)); }
    }
  }

  // ---------- Guards that make runs safe ----------

  /** No collator is an orbiter, in its own pool or in another. */
  ghost predicate Apart(pools: map<Account, Pool>) {
    forall c, k :: c in pools && k in pools ==> !pools[c].Contains(k)
  }

  ghost predicate RemovalGuard(s: State, c: Account) {
    Current(s, c).Some? ==> Current(s, c).value.account in s.pools[c].orbiters
  }

  /** Who joins a pool is no collator, who becomes a collator is in no pool, and a collator is removed only
      while its current orbiter is in the vector. One account may be in several pools. */
  ghost predicate Guarded(s: State, call: Call) {
    match call
    case CollatorAdds(c, o) => o !in s.pools
    case CollatorEnrolled(c) => !InSomePool(s.pools, c)
    case CollatorRemoved(c) => RemovalGuard(s, c)
    case _ => true
  }

  ghost predicate GuardedRun(cfg: Config, s: State, calls: seq<Call>)
    requires cfg.rotatePeriod > 0
    decreases |calls|
  {
    calls == [] ||
      (Guarded(s, calls[0]) && WellFormed(s, calls[0]) && GuardedRun(cfg, Apply(cfg, s, calls[0]), calls[1..]))
  }

  lemma ApartIsKept(pools: map<Account, Pool>)
    requires Apart(pools)
    ensures Kept(pools)
  {
    forall c | c in pools ensures NextOrbiter(pools[c]) != Some(c) {
      assert !pools[c].Contains(c);
    }
    forall c, j | c in pools && j in pools && c != j ensures NetWrite(pools[j], j, c) == Keep {
      WritesAreLocal(pools[j], j, c);
    }
  }

  lemma GuardedIsSafe(cfg: Config, s: State, call: Call)
    requires cfg.rotatePeriod > 0 && Granted(s) && Apart(s.pools) && Guarded(s, call)
    ensures Safe(cfg, s, call)
  {
    if call.NewRound? {
      ApartIsKept(s.pools);
    } else if call.CollatorRemoved? && call.collator in s.pools {
      var c := call.collator;
      forall a: Account, k: Account | Override(s, a) == Some(Some(k)) && (k == c || k in s.pools[c].orbiters)
        ensures a == c || a in s.pools[c].orbiters
      {
        assert Current(s, k).Some? && Current(s, k).value.account == a;
        assert !s.pools[c].Contains(k);
      }
    }
  }

  /** Pools with no account and no collator that was not there before stay apart. */
  lemma FewerMembersKeepApart(before: map<Account, Pool>, after: map<Account, Pool>)
    requires Apart(before) && after.Keys <= before.Keys
    requires forall c, a :: c in after && after[c].Contains(a) ==> before[c].Contains(a)
    ensures Apart(after)
  {
  }

  lemma AddContains(p: Pool, o: Account)
    ensures forall a :: Add(p, o).Contains(a) <==> p.Contains(a) || a == o
  {
    var at := if p.next > |p.orbiters| then 0 else p.next;
    assert p.orbiters == p.orbiters[..at] + p.orbiters[at..];
  }

  lemma JoiningKeepsApart(cfg: Config, s: State, c: Account, o: Account)
    requires Apart(s.pools) && o !in s.pools
    ensures Apart(CollatorAddOrbiter(cfg, s, c, o).0.pools)
  {
    var t := CollatorAddOrbiter(cfg, s, c, o).0;
    if t != s {
      AddContains(s.pools[c], o);
    }
  }

  lemma EnrollingKeepsApart(s: State, c: Account)
    requires Apart(s.pools) && !InSomePool(s.pools, c)
    ensures Apart(AddCollator(s, c).0.pools)
  {
  }

  lemma NobodyNew(p: Pool, o: Account)
    requires o in p.orbiters
    ensures forall a :: Remove(p, o).0.Contains(a) ==> p.Contains(a)
  {
    WithoutKeeps(p.orbiters, o);
  }

  lemma LeavingKeepsApart(s: State, c: Account, o: Account)
    requires Apart(s.pools)
    ensures Apart(RemoveFromPool(s, c, o).0.pools)
  {
    if c in s.pools && o in s.pools[c].orbiters {
      NobodyNew(s.pools[c], o);
      FewerMembersKeepApart(s.pools, s.pools[c := Remove(s.pools[c], o).0]);
    }
  }

  lemma RotatingKeepsApart(cfg: Config, s: State, round: nat, order: seq<Account>)
    requires cfg.rotatePeriod > 0 && Apart(s.pools) && Visits(s, order)
    ensures Apart(OnNewRound(cfg, s, round, order).pools)
  {
    RotationInClosedForm(cfg, s.(currentRound := round, forceRotation := false), round, order);
    FewerMembersKeepApart(s.pools, OnNewRound(cfg, s, round, order).pools);
  }

  lemma StepKeepsApart(cfg: Config, s: State, call: Call)
    requires cfg.rotatePeriod > 0 && Apart(s.pools) && Guarded(s, call) && WellFormed(s, call)
    ensures Apart(Apply(cfg, s, call).pools)
  {
    match call
    case CollatorAdds(c, o) => JoiningKeepsApart(cfg, s, c, o);
    case CollatorEnrolled(c) => EnrollingKeepsApart(s, c);
    case NewRound(round, order) => RotatingKeepsApart(cfg, s, round, order);
    case CollatorRemoved(c) => FewerMembersKeepApart(s.pools, RemoveCollator(s, c).0.pools);
    case OrbiterLeaves(c, o) => LeavingKeepsApart(s, c, o);
    case _ => RightsUntouched(cfg, s, call);
  }

  /** Guarded runs are safe: a caller who checks the three guards need not look at pools and overrides. */
  lemma {:induction false} GuardedRunIsSafe(cfg: Config, s: State, calls: seq<Call>)
    requires cfg.rotatePeriod > 0 && Granted(s) && Apart(s.pools) && GuardedRun(cfg, s, calls)
    ensures SafeRun(cfg, s, calls)
    decreases |calls|
  {
    if calls != [] {
      GuardedIsSafe(cfg, s, calls[0]);
      StepKeepsGranted(cfg, s, calls[0]);
      StepKeepsApart(cfg, s, calls[0]);
      GuardedRunIsSafe(cfg, Apply(cfg, s, calls[0]), calls[1..]);
    }
  }
}
