/** Deposits: membership of a pool is always backed by a reserve, and no call creates or loses balance. */
module OrbitersDeposits {
  import opened Integers
  import opened Xcm
  import opened CollatorPools
  import opened Orbiters
  import opened OrbitersRotation
  import opened OrbitersRuns

  // ---------- The invariant ----------

  ghost predicate PoolSound(cfg: Config, p: Pool) {
    && NoDuplicates(p.orbiters)
    && |p.orbiters| <= cfg.maxPoolSize
    && p.next <= cfg.maxPoolSize
    && (p.current.Some? && !p.current.value.removed ==> p.current.value.account in p.orbiters)
  }

  ghost predicate MembersBacked(s: State) {
    forall c, a :: c in s.pools && s.pools[c].Contains(a) ==> Amount(s.reserved, a) > 0
  }

  ghost predicate RegisteredExactly(s: State) {
    forall a :: a in s.registered <==> Amount(s.reserved, a) > 0
  }

  ghost predicate Backed(cfg: Config, s: State) {
    && s.minDeposit.Some? && s.minDeposit.value > 0
    && RegisteredExactly(s)
    && MembersBacked(s)
    && (forall c :: c in s.pools ==> PoolSound(cfg, s.pools[c]))
  }

  // ---------- One pool ----------

  lemma AddIsSound(cfg: Config, p: Pool, o: Account)
    requires PoolSound(cfg, p) && |p.orbiters| < cfg.maxPoolSize && o !in p.orbiters
    ensures PoolSound(cfg, Add(p, o))
    ensures forall a :: Add(p, o).Contains(a) <==> p.Contains(a) || a == o
  {
  }

  lemma RemoveIsSound(cfg: Config, p: Pool, o: Account)
    requires PoolSound(cfg, p) && o in p.orbiters
    ensures PoolSound(cfg, Remove(p, o).0)
    ensures forall a :: Remove(p, o).0.Contains(a) ==> p.Contains(a)
  {
    WithoutDistinct(p.orbiters, o);
    WithoutKeeps(p.orbiters, o);
  }

  lemma RotateIsSound(cfg: Config, p: Pool)
    requires PoolSound(cfg, p)
    ensures PoolSound(cfg, Rotate(p))
    ensures forall a :: Rotate(p).Contains(a) ==> p.Contains(a)
  {
  }

  // ---------- The calls ----------

  lemma PoolStepKeepsBacked(cfg: Config, s: State, c: Account, p: Pool)
    requires Backed(cfg, s) && PoolSound(cfg, p)
    requires forall a :: p.Contains(a) ==> Amount(s.reserved, a) > 0
    ensures Backed(cfg, s.(pools := s.pools[c := p]))
  {
  }

  lemma SameDeposits(cfg: Config, s: State, t: State)
    requires Backed(cfg, s)
    requires t.pools == s.pools && t.reserved == s.reserved && t.registered == s.registered
    requires t.minDeposit.Some? && t.minDeposit.value > 0
    ensures Backed(cfg, t)
  {
  }

  lemma AddKeepsBacked(cfg: Config, s: State, c: Account, o: Account)
    requires Backed(cfg, s)
    ensures Backed(cfg, CollatorAddOrbiter(cfg, s, c, o).0)
  {
    if CollatorAddOrbiter(cfg, s, c, o).1.Ok? {
      AddIsSound(cfg, s.pools[c], o);
      PoolStepKeepsBacked(cfg, s, c, Add(s.pools[c], o));
    }
  }

  lemma RemoveKeepsBacked(cfg: Config, s: State, c: Account, o: Account)
    requires Backed(cfg, s)
    ensures Backed(cfg, RemoveFromPool(s, c, o).0)
  {
    if RemoveFromPool(s, c, o).1.Ok? {
      RemoveIsSound(cfg, s.pools[c], o);
      PoolStepKeepsBacked(cfg, s, c, Remove(s.pools[c], o).0);
    }
  }

  lemma RegisterKeepsBacked(cfg: Config, s: State, o: Account)
    requires Backed(cfg, s)
    ensures Backed(cfg, OrbiterRegister(s, o).0)
  {
  }

  lemma DroppingKeepsBacked(cfg: Config, s: State, o: Account, t: State)
    requires Backed(cfg, s) && forall c :: c in s.pools ==> !s.pools[c].Contains(o)
    requires t.pools == s.pools && t.minDeposit == s.minDeposit
    requires t.reserved == s.reserved - {o} && t.registered == s.registered - {o}
    ensures Backed(cfg, t)
  {
  }

  lemma UnregisterKeepsBacked(cfg: Config, s: State, o: Account, hint: nat)
    requires Backed(cfg, s)
    ensures Backed(cfg, OrbiterUnregister(s, o, hint).0)
  {
    if OrbiterUnregister(s, o, hint).1.Ok? {
      DroppingKeepsBacked(cfg, s, o, OrbiterUnregister(s, o, hint).0);
    }
  }

  lemma EnrolKeepsBacked(cfg: Config, s: State, c: Account)
    requires Backed(cfg, s)
    ensures Backed(cfg, AddCollator(s, c).0)
  {
  }

  lemma RemovalKeepsBacked(cfg: Config, s: State, c: Account)
    requires Backed(cfg, s)
    ensures Backed(cfg, RemoveCollator(s, c).0)
  {
  }

  lemma NewRoundKeepsBacked(cfg: Config, s: State, round: nat, order: seq<Account>)
    requires cfg.rotatePeriod > 0 && Backed(cfg, s) && Visits(s, order)
    ensures Backed(cfg, OnNewRound(cfg, s, round, order))
  {
    if Rotates(cfg, s, round) {
      var u := s.(currentRound := round, forceRotation := false);
      var t := OnRotate(cfg, u, round, order);
      RotationInClosedForm(cfg, u, round, order);
      forall c | c in t.pools
        ensures PoolSound(cfg, t.pools[c]) && forall a :: t.pools[c].Contains(a) ==> Amount(t.reserved, a) > 0
      {
        RotateIsSound(cfg, s.pools[c]);
      }
    }
  }

  lemma HooksKeepDeposits(cfg: Config, s: State, call: Call)
    requires cfg.rotatePeriod > 0 && (call.BlockInitialized? || call.RewardsDistributed?)
    ensures var t := Apply(cfg, s, call); t == s.(perRound := t.perRound, free := t.free)
  {
  }

  lemma OthersKeepDeposits(cfg: Config, s: State, call: Call)
    requires cfg.rotatePeriod > 0
    requires call.BlockInitialized? || call.RewardsDistributed? || call.RotationForced? || call.FreeBalanceChanged?
          || call.MinDepositSet?
    ensures var t := Apply(cfg, s, call);
            t.pools == s.pools && t.reserved == s.reserved && t.registered == s.registered
              && t.minDeposit == if call.MinDepositSet? then Some(call.deposit) else s.minDeposit
  {
    if call.BlockInitialized? || call.RewardsDistributed? {
      HooksKeepDeposits(cfg, s, call);
    }
  }

  lemma StepKeepsBacked(cfg: Config, s: State, call: Call)
    requires cfg.rotatePeriod > 0 && Backed(cfg, s) && WellFormed(s, call)
    ensures Backed(cfg, Apply(cfg, s, call))
  {
    match call
    case CollatorAdds(c, o) => AddKeepsBacked(cfg, s, c, o);
    case OrbiterLeaves(c, o) => RemoveKeepsBacked(cfg, s, c, o);
    case Registers(o) => RegisterKeepsBacked(cfg, s, o);
    case Unregisters(o, hint) => UnregisterKeepsBacked(cfg, s, o, hint);
    case CollatorEnrolled(c) => EnrolKeepsBacked(cfg, s, c);
    case CollatorRemoved(c) => RemovalKeepsBacked(cfg, s, c);
    case NewRound(r, order) => NewRoundKeepsBacked(cfg, s, r, order);
    case _ =>
      OthersKeepDeposits(cfg, s, call);
      SameDeposits(cfg, s, Apply(cfg, s, call));
  }

  lemma {:induction false} RunKeepsBacked(cfg: Config, s: State, calls: seq<Call>)
    requires cfg.rotatePeriod > 0 && Backed(cfg, s) && WellFormedRun(cfg, s, calls)
    ensures Backed(cfg, Run(cfg, s, calls))
    decreases |calls|
  {
    if calls != [] {
      StepKeepsBacked(cfg, s, calls[0]);
      RunKeepsBacked(cfg, Apply(cfg, s, calls[0]), calls[1..]);
    }
  }

  /** In every reachable state each account in any pool, as member or as current orbiter, has a positive
      reserve; accounts are registered exactly when they have one; every pool is a duplicate-free vector
      within the maximum size, and holds its current orbiter unless that one is flagged for removal. */
  lemma MembershipIsBacked(cfg: Config, minDeposit: nat, calls: seq<Call>)
    requires cfg.rotatePeriod > 0 && minDeposit > 0 && WellFormedRun(cfg, Genesis(minDeposit), calls)
    ensures var s := Run(cfg, Genesis(minDeposit), calls);
            && (forall c, a :: c in s.pools && s.pools[c].Contains(a) ==>
                  Amount(s.reserved, a) > 0 && a in s.registered)
            && (forall a :: a in s.registered <==> Amount(s.reserved, a) > 0)
            && (forall c :: c in s.pools ==> PoolSound(cfg, s.pools[c]))
  {
    RunKeepsBacked(cfg, Genesis(minDeposit), calls);
  }

  // ---------- Conservation ----------

  function Wealth(s: State, a: Account): nat {
    Amount(s.free, a) + Amount(s.reserved, a)
  }

  /** What a call brings to an account from outside: rewards, and transfers made by the rest of the runtime. */
  function Income(s: State, call: Call, a: Account): int {
    match call
    case RewardsDistributed(r, c, amount) => if OrbiterAt(s, r, c) == Some(a) && a in s.free then amount else 0
    case FreeBalanceChanged(b, amount) => if a == b then amount - Amount(s.free, a) else 0
    case _ => 0
  }

  lemma RotationKeepsBalances(cfg: Config, s: State, round: nat, order: seq<Account>)
    requires Visits(s, order) && cfg.rotatePeriod > 0
    ensures OnNewRound(cfg, s, round, order).free == s.free && OnNewRound(cfg, s, round, order).reserved == s.reserved
  {
    RotationInClosedForm(cfg, s.(currentRound := round, forceRotation := false), round, order);
  }

  lemma RegisterConserves(s: State, o: Account, a: Account)
    ensures Wealth(OrbiterRegister(s, o).0, a) == Wealth(s, a)
  {
  }

  lemma UnregisterConserves(s: State, o: Account, hint: nat, a: Account)
    ensures Wealth(OrbiterUnregister(s, o, hint).0, a) == Wealth(s, a)
  {
  }

  lemma RewardsAdd(s: State, round: nat, c: Account, amount: nat, a: Account)
    ensures Wealth(DistributeRewards(s, round, c, amount).0, a)
         == Wealth(s, a) + if OrbiterAt(s, round, c) == Some(a) && a in s.free then amount else 0
  {
  }

  lemma StepConserves(cfg: Config, s: State, call: Call, a: Account)
    requires cfg.rotatePeriod > 0 && WellFormed(s, call)
    ensures Wealth(Apply(cfg, s, call), a) == Wealth(s, a) + Income(s, call, a)
  {
    match call
    case NewRound(r, order) => RotationKeepsBalances(cfg, s, r, order);
    case Registers(o) => RegisterConserves(s, o, a);
    case Unregisters(o, hint) => UnregisterConserves(s, o, hint, a);
    case RewardsDistributed(r, c, amount) => RewardsAdd(s, r, c, amount, a);
    case _ =>
  }

  function TotalIncome(cfg: Config, s: State, calls: seq<Call>, a: Account): int
    requires cfg.rotatePeriod > 0
    decreases |calls|
  {
    if calls == [] then 0 else Income(s, calls[0], a) + TotalIncome(cfg, Apply(cfg, s, calls[0]), calls[1..], a)
  }

  /** Over any run, free plus reserved changes by what came from outside and by nothing else. */
  lemma {:induction false} RunConserves(cfg: Config, s: State, calls: seq<Call>, a: Account)
    requires cfg.rotatePeriod > 0 && WellFormedRun(cfg, s, calls)
    ensures Wealth(Run(cfg, s, calls), a) == Wealth(s, a) + TotalIncome(cfg, s, calls, a)
    decreases |calls|
  {
    if calls != [] {
      StepConserves(cfg, s, calls[0], a);
      RunConserves(cfg, Apply(cfg, s, calls[0]), calls[1..], a);
    }
  }

  /** Balances and registrations of everybody but `o` are as before. */
  ghost predicate OthersUntouched(s: State, t: State, o: Account) {
    forall a :: a != o ==>
      && Amount(t.free, a) == Amount(s.free, a) && Amount(t.reserved, a) == Amount(s.reserved, a)
      && Registration(t, a) == Registration(s, a)
  }

  function Registration(s: State, a: Account): Option<bool> {
    if a in s.registered then Some(s.registered[a]) else None
  }

  /** The account is in no pool, neither in the vector nor as current orbiter. */
  ghost predicate InNoPool(s: State, o: Account) {
    forall c :: c in s.pools ==> !s.pools[c].Contains(o)
  }

  lemma UnregisterAnswers(s: State, o: Account, hint: nat)
    ensures var r := OrbiterUnregister(s, o, hint).1;
            && (r == Err(CollatorsPoolCountTooLow) <==> hint < |s.pools|)
            && (r == Err(OrbiterStillInAPool) <==> |s.pools| <= hint && !InNoPool(s, o))
            && (r == Ok(()) <==> |s.pools| <= hint && InNoPool(s, o))
  {
  }

  /** The reserve of one account is paid back and its registration goes. */
  lemma RefundIsLocal(s: State, t: State, o: Account)
    requires t.free == Refunded(s, o) && t.reserved == s.reserved - {o} && t.registered == s.registered - {o}
    ensures Amount(t.free, o) == Wealth(s, o) && Amount(t.reserved, o) == 0 && o !in t.registered
    ensures OthersUntouched(s, t, o)
  {
    forall a | a != o
      ensures Amount(t.free, a) == Amount(s.free, a) && Amount(t.reserved, a) == Amount(s.reserved, a)
      ensures Registration(t, a) == Registration(s, a)
    {
      assert a in t.registered <==> a in s.registered;
    }
  }

  lemma UnregisterChanges(s: State, o: Account, hint: nat)
    requires OrbiterUnregister(s, o, hint).1.Ok?
    ensures var t := OrbiterUnregister(s, o, hint).0;
            && t == s.(free := t.free, reserved := t.reserved, registered := t.registered)
            && t.free == Refunded(s, o) && t.reserved == s.reserved - {o} && t.registered == s.registered - {o}
  {
  }

  /** An orbiter in no pool gets its whole deposit back; one in a pool, or serving, cannot have it. The count
      comes first, and a count that is too low is refused. */
  lemma UnregisterRefundsExactly(cfg: Config, s: State, o: Account, hint: nat)
    requires Backed(cfg, s)
    ensures var (t, r) := OrbiterUnregister(s, o, hint);
            && (r == Err(CollatorsPoolCountTooLow) <==> hint < |s.pools|)
            && (r == Err(OrbiterStillInAPool) <==> |s.pools| <= hint && !InNoPool(s, o))
            && (r == Ok(()) <==> |s.pools| <= hint && InNoPool(s, o))
            && (r.Ok? ==> Amount(t.free, o) == Wealth(s, o) && Amount(t.reserved, o) == 0 && o !in t.registered)
            && (r.Ok? ==> t == s.(free := t.free, reserved := t.reserved, registered := t.registered))
            && (r.Err? ==> t == s) && (!InNoPool(s, o) ==> o in s.registered)
            && OthersUntouched(s, t, o)
  {
    UnregisterAnswers(s, o, hint);
    if OrbiterUnregister(s, o, hint).1.Ok? {
      UnregisterChanges(s, o, hint);
      RefundIsLocal(s, OrbiterUnregister(s, o, hint).0, o);
    }
    if !InNoPool(s, o) {
      var c :| c in s.pools && s.pools[c].Contains(o);
      assert Amount(s.reserved, o) > 0;
    }
  }

  /** Registering succeeds exactly when free and reserved together cover the minimum deposit, and then
      reserves exactly that, whatever was reserved before. */
  lemma RegisterReservesExactly(s: State, o: Account)
    ensures var (t, r) := OrbiterRegister(s, o);
            && (r == Err(MinOrbiterDepositNotSet) <==> s.minDeposit.None?)
            && (r == Err(InsufficientBalance) <==> s.minDeposit.Some? && Wealth(s, o) < s.minDeposit.value)
            && (r == Ok(()) <==> s.minDeposit.Some? && s.minDeposit.value <= Wealth(s, o))
            && (r.Ok? ==> Amount(t.reserved, o) == s.minDeposit.value && Registration(t, o) == Some(true))
            && (r.Ok? ==> Wealth(t, o) == Wealth(s, o))
            && (r.Ok? ==> t == s.(free := t.free, reserved := t.reserved, registered := t.registered))
            && (r.Err? ==> t == s)
            && OthersUntouched(s, t, o)
  {
  }

  /** Joining succeeds exactly for a registered account, not in that vector, while the pool has room. */
  lemma JoiningSucceedsExactly(cfg: Config, s: State, c: Account, o: Account)
    requires Backed(cfg, s)
    ensures CollatorAddOrbiter(cfg, s, c, o).1.Ok? <==>
      && c in s.pools && |s.pools[c].orbiters| < cfg.maxPoolSize && o !in s.pools[c].orbiters && o in s.registered
  {
  }

  /** Leaving succeeds exactly for an account in the vector; it stays contained while it is serving. */
  lemma LeavingSucceedsExactly(cfg: Config, s: State, c: Account, o: Account)
    requires Backed(cfg, s)
    ensures var (t, r) := RemoveFromPool(s, c, o);
            && (r.Ok? <==> c in s.pools && o in s.pools[c].orbiters)
            && (r.Ok? ==> o !in t.pools[c].orbiters)
            && (r.Ok? ==>
                  (t.pools[c].Contains(o) <==> s.pools[c].current.Some? && s.pools[c].current.value.account == o))
  {
    if c in s.pools {
      WithoutDistinct(s.pools[c].orbiters, o);
    }
  }
}
