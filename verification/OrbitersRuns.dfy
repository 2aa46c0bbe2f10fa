/** Runs of the orbiters pallet. */
module OrbitersRuns {
  import opened Xcm
  import opened CollatorPools
  import opened Orbiters
  import opened OrbitersRotation

  datatype Call =
    | CollatorAdds(collator: Account, orbiter: Account)
    // By the collator, or by the orbiter itself: both calls do the same.
    | OrbiterLeaves(collator: Account, orbiter: Account)
    | Registers(orbiter: Account)
    | Unregisters(orbiter: Account, countHint: nat)
    | CollatorEnrolled(collator: Account)
    | CollatorRemoved(collator: Account)
    | NewRound(round: nat, order: seq<Account>)
    | BlockInitialized
    | RewardsDistributed(round: nat, collator: Account, amount: nat)
    // By the rest of the runtime: migrations, storage set by governance, and transfers of free balance.
    | RotationForced
    | MinDepositSet(deposit: nat)
    | FreeBalanceChanged(account: Account, amount: nat)

  function Apply(cfg: Config, s: State, call: Call): State
    requires cfg.rotatePeriod > 0
  {
    match call
    case CollatorAdds(c, o) => CollatorAddOrbiter(cfg, s, c, o).0
    case OrbiterLeaves(c, o) => RemoveFromPool(s, c, o).0
    case Registers(o) => OrbiterRegister(s, o).0
    case Unregisters(o, hint) => OrbiterUnregister(s, o, hint).0
    case CollatorEnrolled(c) => AddCollator(s, c).0
    case CollatorRemoved(c) => RemoveCollator(s, c).0
    case NewRound(r, order) => OnNewRound(cfg, s, r, order)
    case BlockInitialized => OnInitialize(cfg, s)
    case RewardsDistributed(r, c, amount) => DistributeRewards(s, r, c, amount).0
    case RotationForced => s.(forceRotation := true)
    case MinDepositSet(deposit) => s.(minDeposit := Some(deposit))
    case FreeBalanceChanged(a, amount) => s.(free := s.free[a := amount])
  }

  function Run(cfg: Config, s: State, calls: seq<Call>): State
    requires cfg.rotatePeriod > 0
    decreases |calls|
  {
    if calls == [] then s else Run(cfg, Apply(cfg, s, calls[0]), calls[1..])
  }

  predicate MovesBalances(call: Call) {
    call.Registers? || call.Unregisters? || call.RotationForced? || call.MinDepositSet? || call.FreeBalanceChanged?
  }

  lemma BalanceCallsMoveBalances(cfg: Config, s: State, call: Call)
    requires cfg.rotatePeriod > 0 && MovesBalances(call)
    ensures var t := Apply(cfg, s, call);
            t == s.(free := t.free, reserved := t.reserved, registered := t.registered, minDeposit := t.minDeposit,
                    forceRotation := t.forceRotation)
  {
  }

  /** Only rounds and calls on pools touch pools and rights. */
  lemma RightsUntouched(cfg: Config, s: State, call: Call)
    requires cfg.rotatePeriod > 0 && (MovesBalances(call) || call.BlockInitialized? || call.RewardsDistributed?)
    ensures Apply(cfg, s, call).pools == s.pools && Apply(cfg, s, call).overrides == s.overrides
  {
    if MovesBalances(call) {
      BalanceCallsMoveBalances(cfg, s, call);
    }
  }

  lemma PoolCallsKeepCurrent(cfg: Config, s: State, call: Call)
    requires cfg.rotatePeriod > 0
    requires call.CollatorAdds? || call.OrbiterLeaves? || call.CollatorEnrolled?
    ensures var t := Apply(cfg, s, call);
            && t == s.(pools := t.pools)
            && forall c: Account :: Current(s, c).Some? ==>
                 Current(t, c).Some? && Current(t, c).value.account == Current(s, c).value.account
  {
  }

  /** The storage iterator visits every pool exactly once, and a minimum deposit is positive. */
  ghost predicate WellFormed(s: State, call: Call) {
    && (call.NewRound? ==> Visits(s, call.order))
    && (call.MinDepositSet? ==> call.deposit > 0)
  }

  ghost predicate WellFormedRun(cfg: Config, s: State, calls: seq<Call>)
    requires cfg.rotatePeriod > 0
    decreases |calls|
  {
    calls == [] || (WellFormed(s, calls[0]) && WellFormedRun(cfg, Apply(cfg, s, calls[0]), calls[1..]))
  }

  function Genesis(minDeposit: nat): State {
    State(map[], map[], map[], 0, false, Some(minDeposit), map[], map[], map[])
  }
}
