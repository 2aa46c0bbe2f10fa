/** Authoring rights over runs with disjoint pools: an orbiter that is not leaving does author for its collator,
    and a collator is forbidden to author only while somebody authors for it. */
module OrbitersAuthority {
  import opened Integers
  import opened Xcm
  import opened CollatorPools
  import opened Orbiters
  import opened OrbitersRotation
  import opened OrbitersRuns
  import opened OrbitersExclusivity

  // ---------- The invariant ----------

  ghost predicate Active(s: State, c: Account) {
    Current(s, c).Some? && !Current(s, c).value.removed
  }

  ghost predicate ActiveServes(s: State) {
    forall c :: Active(s, c) ==>
      Override(s, Current(s, c).value.account) == Some(Some(c)) && Current(s, c).value.account in s.pools[c].orbiters
  }

  /** A collator is forbidden to author only while another account authors for it. */
  ghost predicate ForbiddenServed(s: State) {
    forall c: Account :: Override(s, c) == Some(None) ==>
      Current(s, c).Some? && Override(s, Current(s, c).value.account) == Some(Some(c))
  }

  ghost predicate Authority(s: State) {
    Granted(s) && ActiveServes(s) && ForbiddenServed(s)
  }

  // ---------- The hypotheses ----------

  /** The guards of exclusivity, and who joins a pool is in no other pool. */
  ghost predicate FullyGuarded(s: State, call: Call) {
    && Guarded(s, call)
    && (call.CollatorAdds? ==> forall k :: k in s.pools && k != call.collator ==> !s.pools[k].Contains(call.orbiter))
  }

  ghost predicate FullyGuardedRun(cfg: Config, s: State, calls: seq<Call>)
    requires cfg.rotatePeriod > 0
    decreases |calls|
  {
    calls == [] ||
      (&& FullyGuarded(s, calls[0]) && WellFormed(s, calls[0])
       && FullyGuardedRun(cfg, Apply(cfg, s, calls[0]), calls[1..]))
  }

  lemma {:induction false} FullyGuardedIsGuarded(cfg: Config, s: State, calls: seq<Call>)
    requires cfg.rotatePeriod > 0 && FullyGuardedRun(cfg, s, calls)
    ensures GuardedRun(cfg, s, calls)
    decreases |calls|
  {
    if calls != [] {
      FullyGuardedIsGuarded(cfg, Apply(cfg, s, calls[0]), calls[1..]);
    }
  }

  // ---------- Guarded calls keep the pools disjoint ----------

  /** Pools with no account that was not there before stay disjoint. */
  lemma FewerMembersKeepDisjoint(before: map<Account, Pool>, after: map<Account, Pool>)
    requires Disjoint(before) && after.Keys <= before.Keys
    requires forall c, a :: c in after && after[c].Contains(a) ==> before[c].Contains(a)
    ensures Disjoint(after)
  {
  }

  lemma JoiningKeepsDisjoint(cfg: Config, s: State, c: Account, o: Account)
    requires Disjoint(s.pools) && FullyGuarded(s, CollatorAdds(c, o))
    ensures Disjoint(CollatorAddOrbiter(cfg, s, c, o).0.pools)
  {
    var t := CollatorAddOrbiter(cfg, s, c, o).0;
    if t != s {
      AddContains(s.pools[c], o);
      forall k, a | k in t.pools ensures t.pools[k].Contains(a) <==> s.pools[k].Contains(a) || (k == c && a == o) {}
    }
  }

  lemma EnrollingKeepsDisjoint(s: State, c: Account)
    requires Disjoint(s.pools) && FullyGuarded(s, CollatorEnrolled(c))
    ensures Disjoint(AddCollator(s, c).0.pools)
  {
    var t := AddCollator(s, c).0;
    forall k, a | k in t.pools && t.pools[k].Contains(a) ensures k in s.pools && s.pools[k].Contains(a) {}
  }

  lemma RotatingKeepsDisjoint(cfg: Config, s: State, round: nat, order: seq<Account>)
    requires cfg.rotatePeriod > 0 && Disjoint(s.pools) && Visits(s, order)
    ensures Disjoint(OnNewRound(cfg, s, round, order).pools)
  {
    var u := s.(currentRound := round, forceRotation := false);
    RotationInClosedForm(cfg, u, round, order);
    FewerMembersKeepDisjoint(s.pools, OnNewRound(cfg, s, round, order).pools);
  }

  lemma LeavingKeepsDisjoint(s: State, c: Account, o: Account)
    requires Disjoint(s.pools)
    ensures Disjoint(RemoveFromPool(s, c, o).0.pools)
  {
    if c in s.pools && o in s.pools[c].orbiters {
      NobodyNew(s.pools[c], o);
      FewerMembersKeepDisjoint(s.pools, s.pools[c := Remove(s.pools[c], o).0]);
    }
  }

  lemma RemovingKeepsDisjoint(s: State, c: Account)
    requires Disjoint(s.pools)
    ensures Disjoint(RemoveCollator(s, c).0.pools)
  {
    FewerMembersKeepDisjoint(s.pools, RemoveCollator(s, c).0.pools);
  }

  lemma StepKeepsDisjoint(cfg: Config, s: State, call: Call)
    requires cfg.rotatePeriod > 0 && Disjoint(s.pools) && FullyGuarded(s, call) && WellFormed(s, call)
    ensures Disjoint(Apply(cfg, s, call).pools)
  {
    match call
    case CollatorAdds(c, o) => JoiningKeepsDisjoint(cfg, s, c, o);
    case CollatorEnrolled(c) => EnrollingKeepsDisjoint(s, c);
    case NewRound(round, order) => RotatingKeepsDisjoint(cfg, s, round, order);
    case CollatorRemoved(c) => RemovingKeepsDisjoint(s, c);
    case OrbiterLeaves(c, o) => LeavingKeepsDisjoint(s, c, o);
    case _ => RightsUntouched(cfg, s, call);
  }

  // ---------- Rotation ----------

  /** With disjoint pools each override is written by at most one visit. */
  lemma RotatedOverride(cfg: Config, s: State, round: nat, order: seq<Account>, a: Account)
    requires Disjoint(s.pools) && Visits(s, order)
    ensures var t := OnRotate(cfg, s, round, order);
            && (forall c :: c in s.pools && NetWrite(s.pools[c], c, a) != Keep ==>
                  Override(t, a) == Written(NetWrite(s.pools[c], c, a), None))
            && ((forall c :: c in s.pools ==> NetWrite(s.pools[c], c, a) == Keep) ==> Override(t, a) == Override(s, a))
  {
    RotationInClosedForm(cfg, s, round, order);
    DisjointHasNoConflict(s.pools);
    forall c | c in s.pools && NetWrite(s.pools[c], c, a) != Keep
      ensures LastWrite(s.pools, order, a) == NetWrite(s.pools[c], c, a)
    {
      LastWriteWithoutConflict(s.pools, order, a, c);
    }
    LastWriteIsSome(s.pools, order, a);
  }

  lemma RotationGrants(cfg: Config, s: State, round: nat, order: seq<Account>, c: Account)
    requires Disjoint(s.pools) && Visits(s, order) && c in s.pools
    ensures var t := OnRotate(cfg, s, round, order);
            && c in t.pools && t.pools[c] == Rotate(s.pools[c])
            && (match NextOrbiter(s.pools[c])
                case Some(next) => Override(t, next) == Some(Some(c)) && Override(t, c) == Some(None)
                case None => Override(t, c) == None)
  {
    RotationPools(cfg, s, round, order);
    RotatedOverride(cfg, s, round, order, c);
    NextIsOther(s.pools, c);
    if NextOrbiter(s.pools[c]).Some? {
      RotatedOverride(cfg, s, round, order, NextOrbiter(s.pools[c]).value);
    }
    assert NetWrite(s.pools[c], c, c) != Keep;
  }

  /** With disjoint pools the orbiter due next is not the collator itself. */
  lemma NextIsOther(pools: map<Account, Pool>, c: Account)
    requires Disjoint(pools) && c in pools
    ensures NextOrbiter(pools[c]).Some? ==> NextOrbiter(pools[c]).value != c
    ensures NextOrbiter(pools[c]).Some? ==> NetWrite(pools[c], c, NextOrbiter(pools[c]).value) == Put(Some(c))
  {
    if NextOrbiter(pools[c]).Some? {
      assert pools[c].Contains(NextOrbiter(pools[c]).value);
    }
  }

  lemma RotationKeepsAuthority(cfg: Config, s: State, round: nat, order: seq<Account>)
    requires Authority(s) && Disjoint(s.pools) && Visits(s, order)
    ensures Authority(OnRotate(cfg, s, round, order))
  {
    var t := OnRotate(cfg, s, round, order);
    RotationInClosedForm(cfg, s, round, order);
    ApartIsKept(s.pools);
    KeptKeepsGranted(cfg, s, round, order);
    forall c: Account | Override(t, c) == Some(None)
      ensures Current(t, c).Some? && Override(t, Current(t, c).value.account) == Some(Some(c))
    {
      var k := WriterOf(cfg, s, round, order, c);
      RotationGrants(cfg, s, round, order, k);
    }
    forall c | Active(t, c)
      ensures Override(t, Current(t, c).value.account) == Some(Some(c))
      ensures Current(t, c).value.account in t.pools[c].orbiters
    {
      RotationGrants(cfg, s, round, order, c);
      assert s.pools[c].orbiters == [] ==> Active(s, c);
    }
  }

  /** A pool stands behind every override, and visiting that pool writes to it. */
  lemma SomePoolWrites(s: State, a: Account)
    requires Authority(s) && Override(s, a).Some?
    ensures exists c :: c in s.pools && NetWrite(s.pools[c], c, a) != Keep
  {
    var c := if Override(s, a).value.Some? then Override(s, a).value.value else a;
    assert Current(s, c).Some?;
    assert NetWrite(s.pools[c], c, a) != Keep;
  }

  /** After a rotation every override present was written by it: stale ones are all cleared. */
  lemma WriterOf(cfg: Config, s: State, round: nat, order: seq<Account>, a: Account) returns (k: Account)
    requires Authority(s) && Disjoint(s.pools) && Visits(s, order)
    requires Override(OnRotate(cfg, s, round, order), a).Some?
    ensures k in s.pools && NextOrbiter(s.pools[k]).Some?
    ensures Override(OnRotate(cfg, s, round, order), a)
         == if a == NextOrbiter(s.pools[k]).value then Some(Some(k)) else Some(None)
    ensures a == NextOrbiter(s.pools[k]).value || a == k
  {
    RotatedOverride(cfg, s, round, order, a);
    if Override(s, a).Some? {
      SomePoolWrites(s, a);
    }
    k :| k in s.pools && NetWrite(s.pools[k], k, a) != Keep;
  }

  // ---------- The other steps ----------

  lemma PoolsStepKeepsAuthority(s: State, t: State, c: Account)
    requires Authority(s) && c in s.pools && c in t.pools
    requires t == s.(pools := s.pools[c := t.pools[c]])
    requires s.pools[c].current.None? <==> t.pools[c].current.None?
    requires s.pools[c].current.Some? ==> t.pools[c].current.value.account == s.pools[c].current.value.account
    requires Active(t, c) ==> Active(s, c) && t.pools[c].current.value.account in t.pools[c].orbiters
    ensures Authority(t)
  {
    forall a ensures Override(t, a) == Override(s, a) {}
    forall k ensures Current(t, k).Some? <==> Current(s, k).Some? {}
    forall k ensures Current(t, k).Some? ==> Current(t, k).value.account == Current(s, k).value.account {}
    forall k | Active(t, k) ensures Active(s, k) {}
  }

  lemma OnlyMember(s: State, c: Account, k: Account, a: Account)
    requires Disjoint(s.pools) && c in s.pools && k in s.pools && c != k && s.pools[k].Contains(a)
    ensures a !in s.pools[c].orbiters
  {
  }

  lemma RemoveCollatorKeepsAuthority(s: State, c: Account)
    requires Authority(s) && Disjoint(s.pools) && RemovalGuard(s, c)
    ensures Authority(RemoveCollator(s, c).0)
  {
    if c in s.pools {
      var t := RemoveCollator(s, c).0;
      var members := s.pools[c].orbiters;
      forall a ensures Override(t, a) == if a == c || a in members then None else Override(s, a) {}
      forall k | k != c && k in s.pools ensures Override(t, k) == Override(s, k) {
        assert !s.pools[c].Contains(k);
      }
      forall k | k != c && Current(s, k).Some?
        ensures Override(t, Current(s, k).value.account) == Override(s, Current(s, k).value.account)
      {
        var a := Current(s, k).value.account;
        assert s.pools[k].Contains(a);
        assert !s.pools[k].Contains(c);
        OnlyMember(s, c, k, a);
      }
    }
  }

  lemma NewRoundKeepsAuthority(cfg: Config, s: State, round: nat, order: seq<Account>)
    requires cfg.rotatePeriod > 0 && Authority(s) && Disjoint(s.pools) && Visits(s, order)
    ensures Authority(OnNewRound(cfg, s, round, order))
  {
    var u := s.(currentRound := round);
    OnlyRightsMatter(s, u);
    if Rotates(cfg, s, round) {
      var v := u.(forceRotation := false);
      OnlyRightsMatter(s, v);
      assert Visits(v, order);
      RotationKeepsAuthority(cfg, v, round, order);
    }
  }

  lemma EnrolKeepsAuthority(s: State, c: Account)
    requires Authority(s)
    ensures Authority(AddCollator(s, c).0)
  {
    if c !in s.pools {
      var t := AddCollator(s, c).0;
      forall a ensures Override(t, a) == Override(s, a) {}
      forall k ensures Current(t, k) == Current(s, k) {}
      forall k | Active(t, k) ensures Active(s, k) {}
    }
  }

  lemma AddKeepsAuthority(cfg: Config, s: State, c: Account, o: Account)
    requires Authority(s)
    ensures Authority(CollatorAddOrbiter(cfg, s, c, o).0)
  {
    var t := CollatorAddOrbiter(cfg, s, c, o).0;
    if t != s {
      PoolsStepKeepsAuthority(s, t, c);
    }
  }

  lemma RemoveKeepsAuthority(s: State, c: Account, o: Account)
    requires Authority(s)
    ensures Authority(RemoveFromPool(s, c, o).0)
  {
    if c in s.pools && o in s.pools[c].orbiters {
      WithoutKeeps(s.pools[c].orbiters, o);
      PoolsStepKeepsAuthority(s, RemoveFromPool(s, c, o).0, c);
    }
  }

  lemma StepKeepsAuthority(cfg: Config, s: State, call: Call)
    requires cfg.rotatePeriod > 0 && Authority(s) && Disjoint(s.pools)
    requires FullyGuarded(s, call) && WellFormed(s, call)
    ensures Authority(Apply(cfg, s, call))
  {
    var t := Apply(cfg, s, call);
    match call
    case NewRound(r, order) => NewRoundKeepsAuthority(cfg, s, r, order);
    case CollatorRemoved(c) => RemoveCollatorKeepsAuthority(s, c);
    case CollatorAdds(c, o) => AddKeepsAuthority(cfg, s, c, o);
    case OrbiterLeaves(c, o) => RemoveKeepsAuthority(s, c, o);
    case CollatorEnrolled(c) => EnrolKeepsAuthority(s, c);
    case _ =>
      RightsUntouched(cfg, s, call);
      OnlyRightsMatter(s, t);
  }

  lemma OnlyRightsMatter(s: State, t: State)
    requires Authority(s) && t.pools == s.pools && t.overrides == s.overrides
    ensures Authority(t)
  {
  }

  lemma {:induction false} RunKeepsAuthority(cfg: Config, s: State, calls: seq<Call>)
    requires cfg.rotatePeriod > 0 && Authority(s) && Disjoint(s.pools) && FullyGuardedRun(cfg, s, calls)
    ensures Authority(Run(cfg, s, calls)) && Disjoint(Run(cfg, s, calls).pools)
    decreases |calls|
  {
    if calls != [] {
      StepKeepsAuthority(cfg, s, calls[0]);
      StepKeepsDisjoint(cfg, s, calls[0]);
      RunKeepsAuthority(cfg, Apply(cfg, s, calls[0]), calls[1..]);
    }
  }

  // ---------- Who authors ----------

  /** After every fully guarded run an orbiter not flagged for removal resolves to its collator, and the
      collator to nobody; a collator without a current orbiter resolves to itself. */
  lemma ActiveOrbitersServe(cfg: Config, minDeposit: nat, calls: seq<Call>, c: Account)
    requires cfg.rotatePeriod > 0 && FullyGuardedRun(cfg, Genesis(minDeposit), calls)
    ensures var s := Run(cfg, Genesis(minDeposit), calls);
            && (Active(s, c) ==> Resolve(s, Current(s, c).value.account) == Some(c) && Resolve(s, c) == None)
            && (c in s.pools && Current(s, c).None? ==> Resolve(s, c) == Some(c))
  {
    RunKeepsAuthority(cfg, Genesis(minDeposit), calls);
    var s := Run(cfg, Genesis(minDeposit), calls);
    if Active(s, c) {
      assert Override(s, Current(s, c).value.account) == Some(Some(c));
    }
    if c in s.pools {
      CollatorIsNotRedirected(s, c);
    }
  }

  lemma NotCurrent(s: State, c: Account, k: Account)
    requires Disjoint(s.pools) && c in s.pools
    ensures Current(s, k).Some? ==> Current(s, k).value.account != c
  {
  }

  lemma CollatorIsNotRedirected(s: State, c: Account)
    requires Authority(s) && Disjoint(s.pools) && c in s.pools
    ensures Override(s, c) == Some(None) || Override(s, c) == None
  {
    if Override(s, c).Some? && Override(s, c).value.Some? {
      var k := Override(s, c).value.value;
      if Override(s, c) == Some(Some(k)) {
        NotCurrent(s, c, k);
        assert false;
      }
    }
  }

  // ---------- Why the guard on removing a collator is needed ----------

  /** After a collator is removed some account still resolves to it through an override exactly when its
      current orbiter had left the vector while serving. */
  lemma DanglingOverrideExactly(s: State, c: Account)
    requires Authority(s) && Disjoint(s.pools) && c in s.pools
    ensures (exists a :: Override(RemoveCollator(s, c).0, a) == Some(Some(c)))
       <==> (Override(s, c) == Some(None) && Current(s, c).value.account !in s.pools[c].orbiters)
  {
    var t := RemoveCollator(s, c).0;
    var members := s.pools[c].orbiters;
    forall a ensures Override(t, a) == if a == c || a in members then None else Override(s, a) {}
    if Override(s, c) == Some(None) && Current(s, c).value.account !in members {
      var a := Current(s, c).value.account;
      assert s.pools[c].Contains(a) && !s.pools[c].Contains(c);
      assert Override(t, a) == Some(Some(c));
    }
  }
}
