/** `moonbeam-orbiters/src/lib.rs`: state, calls and hooks as functions of the state.

    Accounts are already looked up and privileged origins already checked. The currency is ideal:
    an account exists once it has a free balance entry, and a named reserve succeeds when the free
    balance covers it. */
module Orbiters {
  import opened Integers
  import opened Xcm
  import opened CollatorPools

  // The index of a round is a `u32`.
  const ROUND_MAX: nat := U32_MAX

  datatype Config = Config(maxPoolSize: nat, maxRoundArchive: nat, rotatePeriod: nat)

  datatype State = State(
    pools: map<Account, Pool>,
    overrides: map<Account, Option<Account>>,
    perRound: map<(nat, Account), Account>,
    currentRound: nat,
    forceRotation: bool,
    minDeposit: Option<nat>,
    free: map<Account, nat>,
    reserved: map<Account, nat>,
    registered: map<Account, bool>)

  datatype Error =
    | CollatorAlreadyAdded
    | CollatorNotFound
    | CollatorPoolTooLarge
    | CollatorsPoolCountTooLow
    | MinOrbiterDepositNotSet
    | OrbiterAlreadyInPool
    | OrbiterDepositNotFound
    | OrbiterNotFoundInPool
    | OrbiterStillInAPool
    | InsufficientBalance

  type Outcome = Result<(), Error>

  // ---------- Queries ----------

  function Override(s: State, a: Account): Option<Option<Account>> {
    if a in s.overrides then Some(s.overrides[a]) else None
  }

  /** `lookup_account`, once the inner lookup has produced an account. */
  function Resolve(s: State, a: Account): Option<Account> {
    match Override(s, a)
    case Some(replacement) => replacement
    case None => Some(a)
  }

  function Current(s: State, c: Account): Option<CurrentOrbiter> {
    if c in s.pools then s.pools[c].current else None
  }

  /** An override to a collator belongs to the collator's current orbiter, and forbids the collator. */
  ghost predicate Granted(s: State) {
    forall a: Account, c: Account :: Override(s, a) == Some(Some(c)) ==>
      Current(s, c).Some? && Current(s, c).value.account == a && Override(s, c) == Some(None)
  }

  function OrbiterAt(s: State, round: nat, collator: Account): Option<Account> {
    if (round, collator) in s.perRound then Some(s.perRound[(round, collator)]) else None
  }

  // ---------- Calls ----------

  function CollatorAddOrbiter(cfg: Config, s: State, collator: Account, orbiter: Account): (State, Outcome) {
    if collator !in s.pools then (s, Err(CollatorNotFound))
    else if |s.pools[collator].orbiters| >= cfg.maxPoolSize then (s, Err(CollatorPoolTooLarge))
    else if orbiter in s.pools[collator].orbiters then (s, Err(OrbiterAlreadyInPool))
    else if Amount(s.reserved, orbiter) == 0 then (s, Err(OrbiterDepositNotFound))
    else (s.(pools := s.pools[collator := Add(s.pools[collator], orbiter)]), Ok(()))
  }

  function RemoveFromPool(s: State, collator: Account, orbiter: Account): (State, Outcome) {
    if collator !in s.pools then (s, Err(CollatorNotFound))
    else if orbiter !in s.pools[collator].orbiters then (s, Err(OrbiterNotFoundInPool))
    else (s.(pools := s.pools[collator := Remove(s.pools[collator], orbiter).0]), Ok(()))
  }

  /** `ensure_reserved_named` tops the reserve up to the minimum deposit, or brings it down to it. */
  function OrbiterRegister(s: State, orbiter: Account): (State, Outcome) {
    match s.minDeposit
    case None => (s, Err(MinOrbiterDepositNotSet))
    case Some(deposit) =>
      var total := Amount(s.free, orbiter) + Amount(s.reserved, orbiter);
      if total < deposit then (s, Err(InsufficientBalance))
      else
        (s.(free := s.free[orbiter := total - deposit],
            reserved := s.reserved[orbiter := deposit],
            registered := s.registered[orbiter := true]),
         Ok(()))
  }

  predicate InSomePool(pools: map<Account, Pool>, orbiter: Account) {
    exists c :: c in pools && pools[c].Contains(orbiter)
  }

  /** `unreserve_all_named`, on the free balances. */
  function Refunded(s: State, orbiter: Account): map<Account, nat> {
    if Amount(s.reserved, orbiter) == 0 then s.free
    else s.free[orbiter := Amount(s.free, orbiter) + Amount(s.reserved, orbiter)]
  }

  function OrbiterUnregister(s: State, orbiter: Account, countHint: nat): (State, Outcome) {
    if countHint < |s.pools| then (s, Err(CollatorsPoolCountTooLow))
    else if InSomePool(s.pools, orbiter) then (s, Err(OrbiterStillInAPool))
    else
      (s.(free := Refunded(s, orbiter), reserved := s.reserved - {orbiter}, registered := s.registered - {orbiter}),
       Ok(()))
  }

  function AddCollator(s: State, collator: Account): (State, Outcome) {
    if collator in s.pools then (s, Err(CollatorAlreadyAdded))
    else (s.(pools := s.pools[collator := EMPTY_POOL]), Ok(()))
  }

  function RemoveCollator(s: State, collator: Account): (State, Outcome) {
    if collator !in s.pools then (s, Err(CollatorNotFound))
    else
      (s.(pools := s.pools - {collator},
          overrides := s.overrides - (set o | o in s.pools[collator].orbiters) - {collator}),
       Ok(()))
  }

  // ---------- Rotation ----------

  /** The rounds a rotation at `round` writes for. */
  function Rounds(cfg: Config, round: nat): set<nat> {
    set i | 0 <= i < cfg.rotatePeriod :: SaturatingAdd(round, i, ROUND_MAX)
  }

  predicate Covers(cfg: Config, round: nat, r: nat) {
    r in Rounds(cfg, round)
  }

  function Filled(cfg: Config, round: nat, collator: Account): set<(nat, Account)> {
    set r | r in Rounds(cfg, round) :: (r, collator)
  }

  function Recorded(records: map<(nat, Account), Account>, keys: set<(nat, Account)>, orbiter: Account)
    : map<(nat, Account), Account>
  {
    records + map k | k in keys :: orbiter
  }

  function RotateOverrides(overrides: map<Account, Option<Account>>, collator: Account, pool: Pool)
    : map<Account, Option<Account>>
  {
    var cleared := if pool.current.Some? then overrides - {pool.current.value.account} else overrides;
    match NextOrbiter(pool)
    case Some(next) => cleared[collator := None][next := Some(collator)]
    case None => cleared - {collator}
  }

  /** One visit of the storage translation. */
  function RotateOne(cfg: Config, s: State, round: nat, collator: Account): State
    requires collator in s.pools
  {
    var pool := s.pools[collator];
    s.(pools := s.pools[collator := Rotate(pool)],
       overrides := RotateOverrides(s.overrides, collator, pool),
       perRound := match NextOrbiter(pool)
                   case None => s.perRound
                   case Some(next) => Recorded(s.perRound, Filled(cfg, round, collator), next))
  }

  /** `on_rotate`: the pools in the order in which storage yields them. */
  function OnRotate(cfg: Config, s: State, round: nat, order: seq<Account>): State
    decreases |order|
  {
    if order == [] then s
    else if order[0] !in s.pools then OnRotate(cfg, s, round, order[1..])
    else OnRotate(cfg, RotateOne(cfg, s, round, order[0]), round, order[1..])
  }

  predicate Rotates(cfg: Config, s: State, round: nat)
    requires cfg.rotatePeriod > 0
  {
    s.forceRotation || round % cfg.rotatePeriod == 0
  }

  function OnNewRound(cfg: Config, s: State, round: nat, order: seq<Account>): State
    requires cfg.rotatePeriod > 0
  {
    var t := s.(currentRound := round);
    if Rotates(cfg, s, round) then OnRotate(cfg, t.(forceRotation := false), round, order) else t
  }

  // ---------- Pruning and rewards ----------

  function OnInitialize(cfg: Config, s: State): State {
    if s.currentRound < cfg.maxRoundArchive then s
    else
      var pruned := s.currentRound - cfg.maxRoundArchive;
      s.(perRound := map k | k in s.perRound && k.0 != pruned :: s.perRound[k])
  }

  /** The entry is taken whether or not the deposit succeeds; `Some` names the account paid. */
  function DistributeRewards(s: State, round: nat, collator: Account, amount: nat): (State, Option<Account>) {
    match OrbiterAt(s, round, collator)
    case None => (s, None)
    case Some(orbiter) =>
      var taken := s.(perRound := s.perRound - {(round, collator)});
      if orbiter in s.free then (taken.(free := s.free[orbiter := s.free[orbiter] + amount]), Some(orbiter))
      else (taken, None)
  }

  // ---------- The pallet ----------

  class Pallet {
    const cfg: Config
    var collatorsPool: map<Account, Pool>
    var accountLookupOverride: map<Account, Option<Account>>
    var orbiterPerRound: map<(nat, Account), Account>
    var currentRound: nat
    var forceRotation: bool
    var minOrbiterDeposit: Option<nat>
    var free: map<Account, nat>
    var reserved: map<Account, nat>
    var registeredOrbiter: map<Account, bool>

    function Abs(): State
      reads this
    {
      State(collatorsPool, accountLookupOverride, orbiterPerRound, currentRound, forceRotation,
            minOrbiterDeposit, free, reserved, registeredOrbiter)
    }

    constructor (cfg: Config, minDeposit: nat)
      requires minDeposit > 0
      ensures this.cfg == cfg
      ensures Abs() == State(map[], map[], map[], 0, false, Some(minDeposit), map[], map[], map[])
    {
      this.cfg := cfg;
      collatorsPool, accountLookupOverride, orbiterPerRound := map[], map[], map[];
      currentRound, forceRotation, minOrbiterDeposit := 0, false, Some(minDeposit);
      free, reserved, registeredOrbiter := map[], map[], map[];
    }

    method AddOrbiterToPool(collator: Account, orbiter: Account) returns (r: Outcome)
      modifies this
      ensures (Abs(), r) == CollatorAddOrbiter(cfg, old(Abs()), collator, orbiter)
    {
      if collator !in collatorsPool {
        return Err(CollatorNotFound);
      }
      var pool := new CollatorPoolInfo(collatorsPool[collator]);
      if |pool.orbiters| >= cfg.maxPoolSize {
        return Err(CollatorPoolTooLarge);
      }
      if orbiter in pool.orbiters {
        return Err(OrbiterAlreadyInPool);
      }
      if Amount(reserved, orbiter) == 0 {
        return Err(OrbiterDepositNotFound);
      }
      pool.AddOrbiter(orbiter);
      collatorsPool := collatorsPool[collator := pool.Value()];
      return Ok(());
    }

    method DoRemoveOrbiterFromPool(collator: Account, orbiter: Account) returns (r: Outcome)
      modifies this
      ensures (Abs(), r) == RemoveFromPool(old(Abs()), collator, orbiter)
    {
      if collator !in collatorsPool {
        return Err(CollatorNotFound);
      }
      var pool := new CollatorPoolInfo(collatorsPool[collator]);
      var result := pool.RemoveOrbiter(orbiter);
      match result
      case OrbiterNotFound => return Err(OrbiterNotFoundInPool);
      case _ =>
      collatorsPool := collatorsPool[collator := pool.Value()];
      return Ok(());
    }

    method Register(orbiter: Account) returns (r: Outcome)
      modifies this
      ensures (Abs(), r) == OrbiterRegister(old(Abs()), orbiter)
    {
      if minOrbiterDeposit.None? {
        return Err(MinOrbiterDepositNotSet);
      }
      var deposit, current := minOrbiterDeposit.value, Amount(reserved, orbiter);
      if current < deposit {
        var missing := deposit - current;
        if Amount(free, orbiter) < missing {
          return Err(InsufficientBalance);
        }
        free := free[orbiter := Amount(free, orbiter) - missing];
      } else {
        free := free[orbiter := Amount(free, orbiter) + (current - deposit)];
      }
      reserved := reserved[orbiter := deposit];
      registeredOrbiter := registeredOrbiter[orbiter := true];
      return Ok(());
    }

    /** `order` is the sequence of keys the storage iterator yields. */
    method SomePoolContains(orbiter: Account, order: seq<Account>) returns (found: bool)
      requires (set c | c in order) == collatorsPool.Keys
      ensures found <==> InSomePool(collatorsPool, orbiter)
    {
      for i := 0 to |order|
        invariant forall j :: 0 <= j < i ==> order[j] in collatorsPool && !collatorsPool[order[j]].Contains(orbiter)
      {
        assert order[i] in (set c | c in order);
        var pool := new CollatorPoolInfo(collatorsPool[order[i]]);
        var contained := pool.ContainsOrbiter(orbiter);
        if contained {
          return true;
        }
      }
      forall c | c in collatorsPool ensures !collatorsPool[c].Contains(orbiter) {
        assert c in (set x | x in order);
      }
      return false;
    }

    method Unregister(orbiter: Account, countHint: nat, order: seq<Account>) returns (r: Outcome)
      requires (set c | c in order) == collatorsPool.Keys
      modifies this
      ensures (Abs(), r) == OrbiterUnregister(old(Abs()), orbiter, countHint)
    {
      if countHint < |collatorsPool| {
        return Err(CollatorsPoolCountTooLow);
      }
      var contained := SomePoolContains(orbiter, order);
      if contained {
        return Err(OrbiterStillInAPool);
      }
      UnreserveAll(orbiter);
      registeredOrbiter := registeredOrbiter - {orbiter};
      return Ok(());
    }

    method UnreserveAll(orbiter: Account)
      modifies this`free, this`reserved
      ensures free == Refunded(old(Abs()), orbiter)
      ensures reserved == old(reserved) - {orbiter}
    {
      if Amount(reserved, orbiter) > 0 {
        free := free[orbiter := Amount(free, orbiter) + Amount(reserved, orbiter)];
      }
      reserved := reserved - {orbiter};
    }

    method AddCollatorToProgram(collator: Account) returns (r: Outcome)
      modifies this
      ensures (Abs(), r) == AddCollator(old(Abs()), collator)
    {
      if collator in collatorsPool {
        return Err(CollatorAlreadyAdded);
      }
      collatorsPool := collatorsPool[collator := EMPTY_POOL];
      return Ok(());
    }

    method RemoveCollatorFromProgram(collator: Account) returns (r: Outcome)
      modifies this
      ensures (Abs(), r) == RemoveCollator(old(Abs()), collator)
    {
      if collator !in collatorsPool {
        return Err(CollatorNotFound);
      }
      var pool := collatorsPool[collator];
      collatorsPool := collatorsPool - {collator};
      ghost var before := accountLookupOverride;
      for i := 0 to |pool.orbiters|
        invariant Abs() == old(Abs()).(pools := old(collatorsPool) - {collator}, overrides := accountLookupOverride)
        invariant accountLookupOverride == before - set o | o in pool.orbiters[..i]
      {
        accountLookupOverride := accountLookupOverride - {pool.orbiters[i]};
      }
      assert pool.orbiters[..|pool.orbiters|] == pool.orbiters;
      accountLookupOverride := accountLookupOverride - {collator};
      return Ok(());
    }

    /** The closure given to `translate`, for one key. */
    method RotatePool(round: nat, collator: Account)
      requires collator in collatorsPool
      modifies this
      ensures Abs() == RotateOne(cfg, old(Abs()), round, collator)
    {
      var pool := new CollatorPoolInfo(collatorsPool[collator]);
      var previous, next := pool.RotateOrbiter();
      if previous.Some? {
        accountLookupOverride := accountLookupOverride - {previous.value.account};
      }
      if next.Some? {
        accountLookupOverride := accountLookupOverride[collator := None];
        accountLookupOverride := accountLookupOverride[next.value := Some(collator)];
        FillRounds(round, collator, next.value);
      } else {
        accountLookupOverride := accountLookupOverride - {collator};
      }
      collatorsPool := collatorsPool[collator := pool.Value()];
    }

    method FillRounds(round: nat, collator: Account, orbiter: Account)
      modifies this`orbiterPerRound
      ensures orbiterPerRound == Recorded(old(orbiterPerRound), Filled(cfg, round, collator), orbiter)
    {
      ghost var before := orbiterPerRound;
      var i := 0;
      while i < cfg.rotatePeriod
        invariant 0 <= i <= cfg.rotatePeriod
        invariant orbiterPerRound == Recorded(before, Filled(cfg.(rotatePeriod := i), round, collator), orbiter)
      {
        OneMoreRecord(cfg, before, round, collator, orbiter, i);
        orbiterPerRound := orbiterPerRound[(SaturatingAdd(round, i, ROUND_MAX), collator) := orbiter];
        i := i + 1;
      }
    }

    method Rotation(round: nat, order: seq<Account>)
      modifies this
      ensures Abs() == OnRotate(cfg, old(Abs()), round, order)
    {
      for i := 0 to |order|
        invariant OnRotate(cfg, old(Abs()), round, order) == OnRotate(cfg, Abs(), round, order[i..])
      {
        assert order[i..][0] == order[i] && order[i..][1..] == order[i + 1..];
        if order[i] in collatorsPool {
          RotatePool(round, order[i]);
        }
      }
    }

    method NewRound(round: nat, order: seq<Account>)
      requires cfg.rotatePeriod > 0
      modifies this
      ensures Abs() == OnNewRound(cfg, old(Abs()), round, order)
    {
      currentRound := round;
      if forceRotation {
        forceRotation := false;
        Rotation(round, order);
      } else if round % cfg.rotatePeriod == 0 {
        Rotation(round, order);
      }
    }

    method Initialize()
      modifies this`orbiterPerRound
      ensures Abs() == OnInitialize(cfg, old(Abs()))
    {
      if currentRound >= cfg.maxRoundArchive {
        var pruned := currentRound - cfg.maxRoundArchive;
        orbiterPerRound := map k | k in orbiterPerRound && k.0 != pruned :: orbiterPerRound[k];
      }
    }

    method PayRewards(payForRound: nat, collator: Account, amount: nat) returns (paid: Option<Account>)
      modifies this
      ensures (Abs(), paid) == DistributeRewards(old(Abs()), payForRound, collator, amount)
    {
      if (payForRound, collator) !in orbiterPerRound {
        return None;
      }
      var orbiter := orbiterPerRound[(payForRound, collator)];
      orbiterPerRound := orbiterPerRound - {(payForRound, collator)};
      if orbiter !in free {
        return None;
      }
      free := free[orbiter := free[orbiter] + amount];
      return Some(orbiter);
    }

    /** An account authors for itself, or for the collator it is the current orbiter of, or for nobody. */
    method LookupAccount(inner: Option<Account>) returns (r: Option<Account>)
      ensures r == if inner.None? then None else Resolve(Abs(), inner.value)
      ensures Granted(Abs()) && r.Some? ==>
        || r == inner
        || (Current(Abs(), r.value).Some? && inner == Some(Current(Abs(), r.value).value.account))
    {
      if inner.None? {
        return None;
      }
      if inner.value in accountLookupOverride {
        assert Override(Abs(), inner.value) == Some(accountLookupOverride[inner.value]);
        return accountLookupOverride[inner.value];
      }
      return inner;
    }

    /** Whether a payment for that round would take a record. */
    method IsCollatorPoolWithActiveOrbiter(round: nat, collator: Account) returns (r: bool)
      ensures r <==> OrbiterAt(Abs(), round, collator).Some?
      ensures forall amount :: r <==> DistributeRewards(Abs(), round, collator, amount).0 != Abs()
    {
      r := (round, collator) in orbiterPerRound;
      forall amount ensures r <==> DistributeRewards(Abs(), round, collator, amount).0 != Abs() {
        if r {
          assert (round, collator) !in DistributeRewards(Abs(), round, collator, amount).0.perRound;
        }
      }
    }
  }

  lemma FilledStep(cfg: Config, round: nat, collator: Account, i: nat)
    ensures Filled(cfg.(rotatePeriod := i + 1), round, collator)
         == Filled(cfg.(rotatePeriod := i), round, collator) + {(SaturatingAdd(round, i, ROUND_MAX), collator)}
  {
    assert Rounds(cfg.(rotatePeriod := i + 1), round)
        == Rounds(cfg.(rotatePeriod := i), round) + {SaturatingAdd(round, i, ROUND_MAX)};
  }

  lemma OneMoreRecord(cfg: Config, before: map<(nat, Account), Account>, round: nat, collator: Account,
                      orbiter: Account, i: nat)
    ensures Recorded(before, Filled(cfg.(rotatePeriod := i + 1), round, collator), orbiter)
         == Recorded(before, Filled(cfg.(rotatePeriod := i), round, collator), orbiter)
              [(SaturatingAdd(round, i, ROUND_MAX), collator) := orbiter]
  {
    FilledStep(cfg, round, collator, i);
  }
}
