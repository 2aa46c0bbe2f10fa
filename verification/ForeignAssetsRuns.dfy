/** Runs of the foreign assets pallet: the two maps, the freeze state, deposits and authority. */
module ForeignAssetsRuns {
  import opened Integers
  import opened Xcm
  import opened Utf8
  import opened ForeignAssets

  // ---------- The invariant ----------

  /** The id and location maps are inverse to each other. */
  ghost predicate Inverse(s: State) {
    && (forall id :: id in s.byId ==> s.byId[id] in s.byLocation && s.byLocation[s.byId[id]].0 == id)
    && (forall l :: l in s.byLocation ==> s.byLocation[l].0 in s.byId && s.byId[s.byLocation[l].0] == l)
  }

  function StatusOf(s: State, id: AssetId): Option<Status> {
    if id in s.byId && s.byId[id] in s.byLocation then Some(s.byLocation[s.byId[id]].1) else None
  }

  /** Every asset has a contract, paused exactly when the asset is not active. */
  ghost predicate PausedMirrors(s: State) {
    && s.contracts.Keys == s.byId.Keys
    && (forall id :: id in s.contracts ==> (StatusOf(s, id) == Some(Active) <==> !s.contracts[id].paused))
  }

  ghost predicate Sound(cfg: Config, s: State) {
    Inverse(s) && PausedMirrors(s) && |s.byId| <= cfg.maxForeignAssets && s.details.Keys <= s.byId.Keys
  }

  // ---------- Creation ----------

  /** A new asset under a fresh id and a fresh location, with its contract. */
  ghost predicate Added(s: State, id: AssetId, location: Location, t: State) {
    && id !in s.byId && location !in s.byLocation
    && t.byId == s.byId[id := location]
    && t.byLocation == s.byLocation[location := (id, Active)]
    && t.contracts == s.contracts[id := Contract(false, map[])]
  }

  lemma AddedKeepsInverse(s: State, id: AssetId, location: Location, t: State)
    requires Inverse(s) && Added(s, id, location, t)
    ensures Inverse(t)
  {
  }

  lemma AddedStatus(s: State, id: AssetId, location: Location, t: State)
    requires Inverse(s) && Added(s, id, location, t)
    ensures forall k :: StatusOf(t, k) == if k == id then Some(Active) else StatusOf(s, k)
  {
  }

  lemma AddedKeepsMirror(s: State, id: AssetId, location: Location, t: State)
    requires Inverse(s) && PausedMirrors(s) && Added(s, id, location, t)
    ensures PausedMirrors(t)
  {
    AddedStatus(s, id, location, t);
    forall k | k in t.contracts ensures StatusOf(t, k) == Some(Active) <==> !t.contracts[k].paused {
      if k != id { assert k in s.contracts; }
    }
  }

  lemma AddedIsOneMore(s: State, id: AssetId, location: Location, t: State)
    requires Added(s, id, location, t)
    ensures t.byId.Keys == s.byId.Keys + {id} && |t.byId| == |s.byId| + 1
  {
  }

  ghost predicate Charged(cfg: Config, s: State, id: AssetId, account: Option<Account>, t: State) {
    match account
    case None => t.details == s.details && t.reserved == s.reserved
    case Some(a) =>
      && t.details == s.details[id := DepositDetails(a, cfg.creationDeposit)]
      && t.reserved == s.reserved[a := Amount(s.reserved, a) + cfg.creationDeposit]
  }

  lemma DeployEffect(cfg: Config, s: State, id: AssetId, symbol: seq<Byte>, name: seq<Byte>, account: Option<Account>)
    ensures var (t, r) := Deploy(cfg, s, id, symbol, name, account);
            && (r.Ok? ==> Charged(cfg, s, id, account, t) && t.contracts == s.contracts[id := Contract(false, map[])])
            && (r.Err? ==> t == s)
            && (r == Err(Erc20ContractCreationFail) <==> id in s.contracts || !cfg.deploys(id, symbol, name))
  {
  }

  lemma CreationEffect(cfg: Config, s: State, id: AssetId, location: Location, symbol: seq<Byte>, name: seq<Byte>,
                       account: Option<Account>)
    ensures var (t, r) := DoCreateAsset(cfg, s, id, location, symbol, name, account);
            && (r.Ok? ==>
                  Added(s, id, location, t) && Charged(cfg, s, id, account, t) && |s.byId| < cfg.maxForeignAssets)
            && (r.Err? ==> t == s)
            && (r == Err(Erc20ContractCreationFail) ==>
                  id !in s.byId && (id in s.contracts || !cfg.deploys(id, symbol, name)))
  {
    DeployEffect(cfg, s, id, symbol, name, account);
  }

  lemma CreateKeepsSound(cfg: Config, s: State, id: AssetId, location: Location, symbol: seq<Byte>, name: seq<Byte>,
                         account: Option<Account>)
    requires Sound(cfg, s)
    ensures Sound(cfg, DoCreateAsset(cfg, s, id, location, symbol, name, account).0)
    ensures DoCreateAsset(cfg, s, id, location, symbol, name, account).1 == Err(Erc20ContractCreationFail) ==>
              !cfg.deploys(id, symbol, name)
  {
    CreationEffect(cfg, s, id, location, symbol, name, account);
    var (t, r) := DoCreateAsset(cfg, s, id, location, symbol, name, account);
    if r.Ok? {
      AddedIsSound(cfg, s, id, location, account, t);
    }
  }

  lemma AddedIsSound(cfg: Config, s: State, id: AssetId, location: Location, account: Option<Account>, t: State)
    requires Sound(cfg, s) && |s.byId| < cfg.maxForeignAssets
    requires Added(s, id, location, t) && Charged(cfg, s, id, account, t)
    ensures Sound(cfg, t)
  {
    AddedKeepsInverse(s, id, location, t);
    AddedKeepsMirror(s, id, location, t);
    AddedIsOneMore(s, id, location, t);
  }

  // ---------- Change, freeze, unfreeze ----------

  lemma ChangeKeepsSound(cfg: Config, s: State, origin: Origin, id: AssetId, location: Location)
    requires Sound(cfg, s)
    ensures Sound(cfg, ChangeXcmLocation(s, origin, id, location).0)
    ensures ChangeXcmLocation(s, origin, id, location).1 != Err(CorruptedStorageOrphanLocation)
  {
    var (t, r) := ChangeXcmLocation(s, origin, id, location);
    if r.Ok? {
      MovedKeepsInverse(s, id, location, t);
      assert t.byId.Keys == s.byId.Keys;
      assert |t.byId| == |t.byId.Keys| == |s.byId.Keys|;
      forall k | k in t.contracts ensures StatusOf(t, k) == Some(Active) <==> !t.contracts[k].paused {
        assert StatusOf(t, k) == StatusOf(s, k);
      }
    }
  }

  lemma MovedKeepsInverse(s: State, id: AssetId, location: Location, t: State)
    requires Inverse(s) && id in s.byId && location !in s.byLocation
    requires t.byId == s.byId[id := location]
    requires t.byLocation == (s.byLocation - {s.byId[id]})[location := (id, s.byLocation[s.byId[id]].1)]
    ensures Inverse(t) && forall k :: StatusOf(t, k) == StatusOf(s, k)
  {
  }

  /** Setting the pause flag and the status of one asset together. */
  ghost predicate Switched(s: State, id: AssetId, status: Status, t: State)
    requires id in s.byId && id in s.contracts
  {
    t == s.(byLocation := s.byLocation[s.byId[id] := (id, status)],
            contracts := s.contracts[id := s.contracts[id].(paused := status != Active)])
  }

  lemma SwitchedStatus(s: State, id: AssetId, status: Status, t: State)
    requires Inverse(s) && id in s.byId && id in s.contracts && Switched(s, id, status, t)
    ensures Inverse(t)
    ensures forall k :: StatusOf(t, k) == if k == id then Some(status) else StatusOf(s, k)
  {
    forall k ensures StatusOf(t, k) == if k == id then Some(status) else StatusOf(s, k) {
      if k in s.byId && k != id { assert s.byId[k] != s.byId[id]; }
    }
    forall l | l in t.byLocation ensures t.byLocation[l].0 in t.byId && t.byId[t.byLocation[l].0] == l {
      assert l in s.byLocation;
    }
  }

  lemma SwitchedMirror(s: State, id: AssetId, status: Status, t: State)
    requires PausedMirrors(s) && id in s.byId && Switched(s, id, status, t)
    requires forall k :: StatusOf(t, k) == if k == id then Some(status) else StatusOf(s, k)
    ensures PausedMirrors(t)
  {
    assert t.contracts.Keys == s.contracts.Keys;
    forall k | k in t.contracts ensures StatusOf(t, k) == Some(Active) <==> !t.contracts[k].paused {
      assert k in s.contracts && StatusOf(t, k) == if k == id then Some(status) else StatusOf(s, k);
    }
  }

  lemma SwitchKeepsSound(cfg: Config, s: State, id: AssetId, status: Status, t: State)
    requires Sound(cfg, s) && id in s.byId && Switched(s, id, status, t)
    ensures Sound(cfg, t)
    ensures forall k :: StatusOf(t, k) == if k == id then Some(status) else StatusOf(s, k)
  {
    SwitchedStatus(s, id, status, t);
    SwitchedMirror(s, id, status, t);
  }

  function FrozenStatus(allowDeposit: bool): Status {
    if allowDeposit then FrozenXcmDepositAllowed else FrozenXcmDepositForbidden
  }

  lemma FreezeSwitches(cfg: Config, s: State, origin: Origin, id: AssetId, allowDeposit: bool)
    requires Sound(cfg, s) && FreezeForeignAsset(s, origin, id, allowDeposit).1.Ok?
    ensures id in s.byId && CanModify(origin, s.byId[id]) && StatusOf(s, id) == Some(Active)
    ensures Switched(s, id, FrozenStatus(allowDeposit), FreezeForeignAsset(s, origin, id, allowDeposit).0)
  {
  }

  lemma UnfreezeSwitches(cfg: Config, s: State, origin: Origin, id: AssetId)
    requires Sound(cfg, s) && UnfreezeForeignAsset(s, origin, id).1.Ok?
    ensures id in s.byId && CanModify(origin, s.byId[id]) && StatusOf(s, id) != Some(Active)
    ensures Switched(s, id, Active, UnfreezeForeignAsset(s, origin, id).0)
  {
  }

  lemma FreezeKeepsSound(cfg: Config, s: State, origin: Origin, id: AssetId, allowDeposit: bool)
    requires Sound(cfg, s)
    ensures Sound(cfg, FreezeForeignAsset(s, origin, id, allowDeposit).0)
    ensures FreezeForeignAsset(s, origin, id, allowDeposit).1 != Err(CorruptedStorageOrphanLocation)
    ensures FreezeForeignAsset(s, origin, id, allowDeposit).1 != Err(EvmCallPauseFail)
  {
    var (t, r) := FreezeForeignAsset(s, origin, id, allowDeposit);
    if id in s.byId {
      assert StatusOf(s, id) == Some(Active) <==> !s.contracts[id].paused;
    }
    if r.Ok? {
      FreezeSwitches(cfg, s, origin, id, allowDeposit);
      SwitchKeepsSound(cfg, s, id, FrozenStatus(allowDeposit), t);
    }
  }

  lemma UnfreezeKeepsSound(cfg: Config, s: State, origin: Origin, id: AssetId)
    requires Sound(cfg, s)
    ensures Sound(cfg, UnfreezeForeignAsset(s, origin, id).0)
    ensures UnfreezeForeignAsset(s, origin, id).1 != Err(CorruptedStorageOrphanLocation)
    ensures UnfreezeForeignAsset(s, origin, id).1 != Err(EvmCallUnpauseFail)
  {
    var (t, r) := UnfreezeForeignAsset(s, origin, id);
    if id in s.byId {
      assert StatusOf(s, id) == Some(Active) <==> !s.contracts[id].paused;
    }
    if r.Ok? {
      UnfreezeSwitches(cfg, s, origin, id);
      SwitchKeepsSound(cfg, s, id, Active, t);
    }
  }

  // ---------- Runs ----------

  datatype Call =
    | Create(origin: Origin, id: AssetId, location: Location, symbol: seq<Byte>, name: seq<Byte>)
    | ChangeLocation(origin: Origin, id: AssetId, location: Location)
    | Freeze(origin: Origin, id: AssetId, allowDeposit: bool)
    | Unfreeze(origin: Origin, id: AssetId)
    | Deposits(asset: Asset, who: Location)
    | Transfers(asset: Asset, source: Location, target: Location)
    | Withdraws(asset: Asset, who: Location)
    // Outside the pallet: a holder uses the contract, and the rest of the runtime moves and reserves balance.
    | HolderTransfers(id: AssetId, from: Address, to: Address, amount: nat)
    | BalancesChanged(account: Account, free: nat, reserved: nat)

  function Dispatch(cfg: Config, s: State, call: Call): (State, Outcome)
    requires call.Create? || call.ChangeLocation? || call.Freeze? || call.Unfreeze?
  {
    match call
    case Create(origin, id, location, symbol, name) => CreateForeignAsset(cfg, s, origin, id, location, symbol, name)
    case ChangeLocation(origin, id, location) => ChangeXcmLocation(s, origin, id, location)
    case Freeze(origin, id, allowDeposit) => FreezeForeignAsset(s, origin, id, allowDeposit)
    case Unfreeze(origin, id) => UnfreezeForeignAsset(s, origin, id)
  }

  predicate Managing(call: Call) {
    call.Create? || call.ChangeLocation? || call.Freeze? || call.Unfreeze?
  }

  function Apply(cfg: Config, s: State, call: Call): State {
    match call
    case Deposits(asset, who) => XcmDeposit(cfg, s, asset, who).0
    case Transfers(asset, from, to) => XcmInternalTransfer(cfg, s, asset, from, to).0
    case Withdraws(asset, who) => XcmWithdraw(cfg, s, asset, who).0
    case HolderTransfers(id, from, to, amount) => HolderTransfer(s, id, from, to, amount)
    case BalancesChanged(a, free, reserved) => s.(free := s.free[a := free], reserved := s.reserved[a := reserved])
    case _ => Dispatch(cfg, s, call).0
  }

  function Run(cfg: Config, s: State, calls: seq<Call>): State
    decreases |calls|
  {
    if calls == [] then s else Run(cfg, Apply(cfg, s, calls[0]), calls[1..])
  }

  const EMPTY := State(map[], map[], map[], map[], map[], map[])

  /** Only balances inside contracts change. */
  ghost predicate OnlyBalances(s: State, t: State) {
    && t == s.(contracts := t.contracts)
    && t.contracts.Keys == s.contracts.Keys
    && (forall id :: id in s.contracts ==> t.contracts[id].paused == s.contracts[id].paused)
  }

  lemma MintingMovesBalances(cfg: Config, s: State, asset: Asset, who: Location)
    ensures OnlyBalances(s, XcmDeposit(cfg, s, asset, who).0)
  {
  }

  lemma BurningMovesBalances(cfg: Config, s: State, asset: Asset, who: Location)
    ensures OnlyBalances(s, XcmWithdraw(cfg, s, asset, who).0)
  {
  }

  lemma TransferMovesBalances(cfg: Config, s: State, asset: Asset, from: Location, to: Location)
    ensures OnlyBalances(s, XcmInternalTransfer(cfg, s, asset, from, to).0)
  {
  }

  lemma TokenCallsMoveBalances(cfg: Config, s: State, call: Call)
    requires !Managing(call) && !call.BalancesChanged?
    ensures OnlyBalances(s, Apply(cfg, s, call))
  {
    match call
    case Deposits(asset, who) => MintingMovesBalances(cfg, s, asset, who);
    case Withdraws(asset, who) => BurningMovesBalances(cfg, s, asset, who);
    case Transfers(asset, from, to) => TransferMovesBalances(cfg, s, asset, from, to);
    case HolderTransfers(id, from, to, amount) =>
  }

  lemma BalancesKeepSound(cfg: Config, s: State, t: State)
    requires Sound(cfg, s) && OnlyBalances(s, t)
    ensures Sound(cfg, t)
  {
  }

  lemma StepKeepsSound(cfg: Config, s: State, call: Call)
    requires Sound(cfg, s)
    ensures Sound(cfg, Apply(cfg, s, call))
  {
    match call
    case Create(origin, id, location, symbol, name) =>
      if CanModify(origin, location) && DepositAccount(cfg, origin).Ok? {
        CreateKeepsSound(cfg, s, id, location, symbol, name, DepositAccount(cfg, origin).value);
      }
    case ChangeLocation(origin, id, location) => ChangeKeepsSound(cfg, s, origin, id, location);
    case Freeze(origin, id, allowDeposit) => FreezeKeepsSound(cfg, s, origin, id, allowDeposit);
    case Unfreeze(origin, id) => UnfreezeKeepsSound(cfg, s, origin, id);
    case BalancesChanged(_, _, _) =>
      forall k ensures StatusOf(Apply(cfg, s, call), k) == StatusOf(s, k) {}
    case _ =>
      TokenCallsMoveBalances(cfg, s, call);
      BalancesKeepSound(cfg, s, Apply(cfg, s, call));
  }

  lemma {:induction false} RunKeepsSound(cfg: Config, s: State, calls: seq<Call>)
    requires Sound(cfg, s)
    ensures Sound(cfg, Run(cfg, s, calls))
    decreases |calls|
  {
    if calls != [] {
      StepKeepsSound(cfg, s, calls[0]);
      RunKeepsSound(cfg, Apply(cfg, s, calls[0]), calls[1..]);
    }
  }

  lemma EmptyIsSound(cfg: Config)
    ensures Sound(cfg, EMPTY)
  {
  }

  /** In every reachable state the two lookups are inverse to each other, the stored status is active
      exactly when the contract is not paused, and the number of assets is within the limit. */
  lemma LookupsAreInverse(cfg: Config, calls: seq<Call>)
    ensures var s := Run(cfg, EMPTY, calls);
            && (forall id: AssetId, l :: Convert(s, l) == Some(id) <==> ConvertBack(s, id) == Some(l))
            && (forall l :: l in s.byLocation ==>
                  && s.byLocation[l].0 in s.contracts
                  && (s.byLocation[l].1 == Active <==> !s.contracts[s.byLocation[l].0].paused))
            && |s.byId| <= cfg.maxForeignAssets
  {
    EmptyIsSound(cfg);
    RunKeepsSound(cfg, EMPTY, calls);
    var s := Run(cfg, EMPTY, calls);
    forall l | l in s.byLocation
      ensures s.byLocation[l].0 in s.contracts
      ensures s.byLocation[l].1 == Active <==> !s.contracts[s.byLocation[l].0].paused
    {
      assert StatusOf(s, s.byLocation[l].0) == Some(s.byLocation[l].1);
    }
  }

  /** The errors that would show the pallet's storage and its contracts to disagree. */
  predicate Disagreement(cfg: Config, call: Call, e: Error) {
    || e in {CorruptedStorageOrphanLocation, EvmCallPauseFail, EvmCallUnpauseFail}
    || (e == Erc20ContractCreationFail && (call.Create? ==> cfg.deploys(call.id, call.symbol, call.name)))
  }

  lemma CreateHasNoInternalError(cfg: Config, s: State, call: Call)
    requires Sound(cfg, s) && call.Create?
    ensures Dispatch(cfg, s, call).1.Err? ==> !Disagreement(cfg, call, Dispatch(cfg, s, call).1.error)
  {
    CreateDispatches(cfg, s, call);
    if DepositAccount(cfg, call.origin).Ok? {
      CreationEffect(cfg, s, call.id, call.location, call.symbol, call.name, DepositAccount(cfg, call.origin).value);
    }
  }

  lemma CreateDispatches(cfg: Config, s: State, call: Call)
    requires call.Create?
    ensures var account := DepositAccount(cfg, call.origin);
            Dispatch(cfg, s, call) ==
              if !CanModify(call.origin, call.location) then (s, Err(LocationOutsideOfOrigin))
              else if account.Err? then (s, Err(account.error))
              else DoCreateAsset(cfg, s, call.id, call.location, call.symbol, call.name, account.value)
    ensures DepositAccount(cfg, call.origin).Err? ==> !Disagreement(cfg, call, DepositAccount(cfg, call.origin).error)
  {
  }

  lemma FreezeErrors(s: State, origin: Origin, id: AssetId, allowDeposit: bool)
    ensures var r := FreezeForeignAsset(s, origin, id, allowDeposit).1;
            r.Err? ==> r.error in {AssetDoesNotExist, LocationOutsideOfOrigin, CorruptedStorageOrphanLocation,
                                   AssetAlreadyFrozen, EvmCallPauseFail}
  {
  }

  lemma FreezeHasNoInternalError(cfg: Config, s: State, origin: Origin, id: AssetId, allowDeposit: bool)
    requires Sound(cfg, s)
    ensures var r := FreezeForeignAsset(s, origin, id, allowDeposit).1;
            r.Err? ==> !Disagreement(cfg, Freeze(origin, id, allowDeposit), r.error)
  {
    FreezeKeepsSound(cfg, s, origin, id, allowDeposit);
    FreezeErrors(s, origin, id, allowDeposit);
  }

  lemma UnfreezeHasNoInternalError(cfg: Config, s: State, origin: Origin, id: AssetId)
    requires Sound(cfg, s)
    ensures var r := UnfreezeForeignAsset(s, origin, id).1; r.Err? ==> !Disagreement(cfg, Unfreeze(origin, id), r.error)
  {
    UnfreezeKeepsSound(cfg, s, origin, id);
  }

  lemma ChangeHasNoInternalError(cfg: Config, s: State, origin: Origin, id: AssetId, location: Location)
    requires Sound(cfg, s)
    ensures var r := ChangeXcmLocation(s, origin, id, location).1;
            r.Err? ==> !Disagreement(cfg, ChangeLocation(origin, id, location), r.error)
  {
    ChangeKeepsSound(cfg, s, origin, id, location);
  }

  lemma NoInternalError(cfg: Config, s: State, call: Call)
    requires Sound(cfg, s) && Managing(call)
    ensures Dispatch(cfg, s, call).1.Err? ==> !Disagreement(cfg, call, Dispatch(cfg, s, call).1.error)
  {
    match call
    case Create(_, _, _, _, _) => CreateHasNoInternalError(cfg, s, call);
    case ChangeLocation(origin, id, location) => ChangeHasNoInternalError(cfg, s, origin, id, location);
    case Freeze(origin, id, allowDeposit) => FreezeHasNoInternalError(cfg, s, origin, id, allowDeposit);
    case Unfreeze(origin, id) => UnfreezeHasNoInternalError(cfg, s, origin, id);
  }

  /** No call ever reports corrupted storage, no contract refuses to be paused or unpaused, and a contract fails
      to be created only when the EVM does not deploy it, never because its address is taken. */
  lemma InternalErrorsUnreachable(cfg: Config, calls: seq<Call>, call: Call)
    requires Managing(call)
    ensures var r := Dispatch(cfg, Run(cfg, EMPTY, calls), call).1;
            r.Err? ==> !Disagreement(cfg, call, r.error)
  {
    EmptyIsSound(cfg);
    RunKeepsSound(cfg, EMPTY, calls);
    NoInternalError(cfg, Run(cfg, EMPTY, calls), call);
  }

  // ---------- What one call undoes ----------

  /** Unfreezing undoes freezing, whichever kind of freeze it was. */
  lemma UnfreezeUndoesFreeze(cfg: Config, s: State, origin: Origin, id: AssetId, allowDeposit: bool)
    requires Sound(cfg, s) && FreezeForeignAsset(s, origin, id, allowDeposit).1.Ok?
    ensures UnfreezeForeignAsset(FreezeForeignAsset(s, origin, id, allowDeposit).0, origin, id) == (s, Ok(()))
  {
    var t := FreezeForeignAsset(s, origin, id, allowDeposit).0;
    var u := UnfreezeForeignAsset(t, origin, id).0;
    assert s.byLocation[s.byId[id]] == (id, Active);
    assert u.byLocation == s.byLocation;
    assert u.contracts == s.contracts;
  }

  /** Moving an asset back undoes moving it: the old location is free again. */
  lemma MovingBackUndoesMoving(cfg: Config, s: State, origin: Origin, id: AssetId, location: Location)
    requires Sound(cfg, s) && ChangeXcmLocation(s, origin, id, location).1.Ok?
    ensures ChangeXcmLocation(ChangeXcmLocation(s, origin, id, location).0, origin, id, s.byId[id]) == (s, Ok(()))
  {
    var t := ChangeXcmLocation(s, origin, id, location).0;
    var u := ChangeXcmLocation(t, origin, id, s.byId[id]).0;
    assert u.byId == s.byId;
    assert u.byLocation == s.byLocation;
  }

  // ---------- Siblings do not interfere ----------

  /** Only this origin manages assets; anybody may use them. */
  ghost predicate By(origin: Origin, call: Call) {
    Managing(call) ==> call.origin == origin
  }

  function PausedOf(s: State, id: AssetId): Option<bool> {
    if id in s.contracts then Some(s.contracts[id].paused) else None
  }

  ghost predicate Same(s: State, t: State, id: AssetId) {
    && id in s.byId && id in t.byId && t.byId[id] == s.byId[id]
    && StatusOf(t, id) == StatusOf(s, id) && PausedOf(t, id) == PausedOf(s, id)
  }

  /** Seen from an origin: foreign assets stay as they are, its own assets stay its own, new ones are its own. */
  ghost predicate Apart(origin: Origin, s: State, t: State) {
    && (forall id :: id in s.byId && !Within(origin, s.byId[id]) ==> Same(s, t, id))
    && (forall id :: id in s.byId && Within(origin, s.byId[id]) ==> id in t.byId && Within(origin, t.byId[id]))
    && (forall id :: id in t.byId && id !in s.byId ==> Within(origin, t.byId[id]))
  }

  lemma BalancesAreApart(origin: Origin, s: State, t: State)
    requires OnlyBalances(s, t)
    ensures Apart(origin, s, t)
  {
  }

  /** Only one asset changes, and the origin may modify it before and after. */
  lemma OneChangeIsApart(origin: Origin, s: State, id: AssetId, t: State)
    requires forall k :: k != id && k in s.byId ==> Same(s, t, k)
    requires t.byId.Keys == s.byId.Keys + {id} && Within(origin, t.byId[id])
    requires id in s.byId ==> Within(origin, s.byId[id])
    ensures Apart(origin, s, t)
  {
  }

  lemma AddedIsApart(cfg: Config, s: State, origin: Origin, id: AssetId, location: Location, t: State)
    requires Sound(cfg, s) && Added(s, id, location, t) && Within(origin, location)
    ensures Apart(origin, s, t)
  {
    AddedStatus(s, id, location, t);
    AddedIsOneMore(s, id, location, t);
    OneChangeIsApart(origin, s, id, t);
  }

  lemma CreationIsApart(cfg: Config, s: State, call: Call)
    requires Sound(cfg, s) && call.Create?
    ensures Apart(call.origin, s, Dispatch(cfg, s, call).0)
  {
    var (t, r) := Dispatch(cfg, s, call);
    CreateDispatches(cfg, s, call);
    if CanModify(call.origin, call.location) && DepositAccount(cfg, call.origin).Ok? {
      CreationEffect(cfg, s, call.id, call.location, call.symbol, call.name, DepositAccount(cfg, call.origin).value);
      if r.Ok? {
        AddedIsApart(cfg, s, call.origin, call.id, call.location, t);
      }
    }
  }

  lemma MoveIsApart(cfg: Config, s: State, origin: Origin, id: AssetId, location: Location)
    requires Sound(cfg, s)
    ensures Apart(origin, s, ChangeXcmLocation(s, origin, id, location).0)
  {
    var (t, r) := ChangeXcmLocation(s, origin, id, location);
    if r.Ok? {
      MovedKeepsInverse(s, id, location, t);
      OneChangeIsApart(origin, s, id, t);
    }
  }

  lemma SwitchIsApart(cfg: Config, s: State, origin: Origin, id: AssetId, status: Status, t: State)
    requires Sound(cfg, s) && id in s.byId && Within(origin, s.byId[id])
    requires Switched(s, id, status, t)
    ensures Apart(origin, s, t)
  {
    SwitchKeepsSound(cfg, s, id, status, t);
    OneChangeIsApart(origin, s, id, t);
  }

  lemma FreezeIsApart(cfg: Config, s: State, origin: Origin, id: AssetId, allowDeposit: bool)
    requires Sound(cfg, s)
    ensures Apart(origin, s, FreezeForeignAsset(s, origin, id, allowDeposit).0)
  {
    var (t, r) := FreezeForeignAsset(s, origin, id, allowDeposit);
    if r.Ok? {
      FreezeSwitches(cfg, s, origin, id, allowDeposit);
      SwitchIsApart(cfg, s, origin, id, FrozenStatus(allowDeposit), t);
    }
  }

  lemma UnfreezeIsApart(cfg: Config, s: State, origin: Origin, id: AssetId)
    requires Sound(cfg, s)
    ensures Apart(origin, s, UnfreezeForeignAsset(s, origin, id).0)
  {
    var (t, r) := UnfreezeForeignAsset(s, origin, id);
    if r.Ok? {
      UnfreezeSwitches(cfg, s, origin, id);
      SwitchIsApart(cfg, s, origin, id, Active, t);
    }
  }

  lemma StepIsApart(cfg: Config, s: State, origin: Origin, call: Call)
    requires Sound(cfg, s) && By(origin, call)
    ensures Apart(origin, s, Apply(cfg, s, call))
  {
    match call
    case Create(_, _, _, _, _) => CreationIsApart(cfg, s, call);
    case ChangeLocation(_, id, location) => MoveIsApart(cfg, s, origin, id, location);
    case Freeze(_, id, allowDeposit) => FreezeIsApart(cfg, s, origin, id, allowDeposit);
    case Unfreeze(_, id) => UnfreezeIsApart(cfg, s, origin, id);
    case BalancesChanged(_, _, _) =>
    case _ =>
      TokenCallsMoveBalances(cfg, s, call);
      BalancesAreApart(origin, s, Apply(cfg, s, call));
  }

  lemma ApartComposes(origin: Origin, s: State, t: State, u: State)
    requires Apart(origin, s, t) && Apart(origin, t, u)
    ensures Apart(origin, s, u)
  {
  }

  ghost predicate RunBy(origin: Origin, calls: seq<Call>) {
    forall i :: 0 <= i < |calls| ==> By(origin, calls[i])
  }

  /** Whatever one origin does, in any run: assets outside its location keep their location, status and
      pause flag, its own assets stay inside, and no asset crosses the border either way. */
  lemma {:induction false} SiblingsDoNotInterfere(cfg: Config, s: State, origin: Origin, calls: seq<Call>)
    requires Sound(cfg, s) && RunBy(origin, calls)
    ensures Apart(origin, s, Run(cfg, s, calls))
    decreases |calls|
  {
    if calls != [] {
      var t := Apply(cfg, s, calls[0]);
      assert By(origin, calls[0]);
      StepIsApart(cfg, s, origin, calls[0]);
      StepKeepsSound(cfg, s, calls[0]);
      SiblingsDoNotInterfere(cfg, t, origin, calls[1..]);
      ApartComposes(origin, s, t, Run(cfg, s, calls));
    }
  }

  /** Where two siblings meet there is nothing: what one parachain does leaves every asset of another as it is. */
  lemma SiblingParachainsAreApart(cfg: Config, s: State, p: nat, q: nat, calls: seq<Call>, id: AssetId)
    requires Sound(cfg, s) && p != q && RunBy(FromXcm(Location(1, [Parachain(p)])), calls)
    requires id in s.byId && Within(FromXcm(Location(1, [Parachain(q)])), s.byId[id])
    ensures Same(s, Run(cfg, s, calls), id)
  {
    var location := s.byId[id];
    SiblingsDoNotInterfere(cfg, s, FromXcm(Location(1, [Parachain(p)])), calls);
    assert location.interior[0] == Parachain(q);
  }

  /** Every managing call is refused for its location exactly when it reaches outside the origin. */
  lemma AuthorityExactly(cfg: Config, s: State, call: Call)
    requires Managing(call)
    ensures Dispatch(cfg, s, call).1 == Err(LocationOutsideOfOrigin) <==>
      || ((call.Create? || call.ChangeLocation?) && !Within(call.origin, call.location))
      || (!call.Create? && call.id in s.byId && !Within(call.origin, s.byId[call.id]))
  {
  }

  // ---------- Frozen assets ----------

  /** The call unfreezes the asset: a call by an origin that may not modify it is refused. */
  ghost predicate Unfreezes(s: State, call: Call, id: AssetId) {
    call.Unfreeze? && call.id == id && id in s.byId && Within(call.origin, s.byId[id])
  }

  ghost predicate StaysFrozen(cfg: Config, s: State, calls: seq<Call>, id: AssetId)
    decreases |calls|
  {
    calls == [] || (!Unfreezes(s, calls[0], id) && StaysFrozen(cfg, Apply(cfg, s, calls[0]), calls[1..], id))
  }

  /** While an asset is frozen no balance of it goes down, and with deposits forbidden none changes. */
  ghost predicate Held(s: State, t: State, id: AssetId)
    requires id in s.contracts
  {
    && id in t.contracts && StatusOf(t, id) == StatusOf(s, id)
    && (forall who :: t.contracts[id].BalanceOf(who) >= s.contracts[id].BalanceOf(who))
    && (StatusOf(s, id) == Some(FrozenXcmDepositForbidden) ==> t.contracts[id] == s.contracts[id])
  }

  ghost predicate Frozen(s: State, id: AssetId) {
    StatusOf(s, id).Some? && StatusOf(s, id) != Some(Active)
  }

  /** The asset keeps its contract, location and status. */
  lemma UntouchedIsHeld(s: State, t: State, id: AssetId)
    requires id in s.contracts && id in t.contracts && t.contracts[id] == s.contracts[id]
    requires StatusOf(t, id) == StatusOf(s, id)
    ensures Held(s, t, id)
  {
  }

  lemma DepositHolds(cfg: Config, s: State, asset: Asset, who: Location, id: AssetId)
    requires Sound(cfg, s) && id in s.contracts && Frozen(s, id)
    ensures Held(s, XcmDeposit(cfg, s, asset, who).0, id)
  {
    var t := XcmDeposit(cfg, s, asset, who).0;
    assert StatusOf(t, id) == StatusOf(s, id);
    if asset.id in s.byLocation {
      assert StatusOf(s, s.byLocation[asset.id].0) == Some(s.byLocation[asset.id].1);
    }
  }

  lemma WithdrawHolds(cfg: Config, s: State, asset: Asset, who: Location, id: AssetId)
    requires Sound(cfg, s) && id in s.contracts && Frozen(s, id)
    ensures Held(s, XcmWithdraw(cfg, s, asset, who).0, id)
  {
    if asset.id in s.byLocation {
      assert StatusOf(s, s.byLocation[asset.id].0) == Some(s.byLocation[asset.id].1);
    }
    UntouchedIsHeld(s, XcmWithdraw(cfg, s, asset, who).0, id);
  }

  lemma TransferHolds(cfg: Config, s: State, asset: Asset, from: Location, to: Location, id: AssetId)
    requires Sound(cfg, s) && id in s.contracts && Frozen(s, id)
    ensures Held(s, XcmInternalTransfer(cfg, s, asset, from, to).0, id)
  {
    if asset.id in s.byLocation {
      assert StatusOf(s, s.byLocation[asset.id].0) == Some(s.byLocation[asset.id].1);
    }
    UntouchedIsHeld(s, XcmInternalTransfer(cfg, s, asset, from, to).0, id);
  }

  lemma HolderHolds(cfg: Config, s: State, k: AssetId, from: Address, to: Address, amount: nat, id: AssetId)
    requires Sound(cfg, s) && id in s.contracts && Frozen(s, id)
    ensures Held(s, HolderTransfer(s, k, from, to, amount), id)
  {
    assert s.contracts[id].paused;
    UntouchedIsHeld(s, HolderTransfer(s, k, from, to, amount), id);
  }

  lemma SwitchHolds(cfg: Config, s: State, k: AssetId, status: Status, t: State, id: AssetId)
    requires Sound(cfg, s) && id in s.contracts && k in s.byId && k != id
    requires Switched(s, k, status, t)
    ensures Held(s, t, id)
  {
    SwitchKeepsSound(cfg, s, k, status, t);
    UntouchedIsHeld(s, t, id);
  }

  lemma CreationHolds(cfg: Config, s: State, call: Call, id: AssetId)
    requires Sound(cfg, s) && id in s.contracts && call.Create?
    ensures Held(s, Dispatch(cfg, s, call).0, id)
  {
    var (t, r) := Dispatch(cfg, s, call);
    CreateDispatches(cfg, s, call);
    if CanModify(call.origin, call.location) && DepositAccount(cfg, call.origin).Ok? {
      CreationEffect(cfg, s, call.id, call.location, call.symbol, call.name, DepositAccount(cfg, call.origin).value);
      if r.Ok? {
        AddedStatus(s, call.id, call.location, t);
      }
    }
    UntouchedIsHeld(s, t, id);
  }

  lemma MoveHolds(cfg: Config, s: State, origin: Origin, k: AssetId, location: Location, id: AssetId)
    requires Sound(cfg, s) && id in s.contracts
    ensures Held(s, ChangeXcmLocation(s, origin, k, location).0, id)
  {
    var (t, r) := ChangeXcmLocation(s, origin, k, location);
    if r.Ok? {
      MovedKeepsInverse(s, k, location, t);
    }
    UntouchedIsHeld(s, t, id);
  }

  /** A frozen asset cannot be frozen again, so only calls about other assets get through. */
  lemma FreezeHolds(cfg: Config, s: State, origin: Origin, k: AssetId, allowDeposit: bool, id: AssetId)
    requires Sound(cfg, s) && id in s.contracts && Frozen(s, id)
    ensures Held(s, FreezeForeignAsset(s, origin, k, allowDeposit).0, id)
  {
    var (t, r) := FreezeForeignAsset(s, origin, k, allowDeposit);
    if r.Ok? {
      FreezeSwitches(cfg, s, origin, k, allowDeposit);
      SwitchHolds(cfg, s, k, FrozenStatus(allowDeposit), t, id);
    }
  }

  lemma UnfreezeHolds(cfg: Config, s: State, origin: Origin, k: AssetId, id: AssetId)
    requires Sound(cfg, s) && id in s.contracts && !Unfreezes(s, Unfreeze(origin, k), id)
    ensures Held(s, UnfreezeForeignAsset(s, origin, k).0, id)
  {
    var (t, r) := UnfreezeForeignAsset(s, origin, k);
    if r.Ok? {
      UnfreezeSwitches(cfg, s, origin, k);
      SwitchHolds(cfg, s, k, Active, t, id);
    }
  }

  lemma ManagingHolds(cfg: Config, s: State, call: Call, id: AssetId)
    requires Sound(cfg, s) && id in s.contracts && Frozen(s, id) && !Unfreezes(s, call, id) && Managing(call)
    ensures Held(s, Dispatch(cfg, s, call).0, id)
  {
    match call
    case Create(_, _, _, _, _) => CreationHolds(cfg, s, call, id);
    case ChangeLocation(origin, k, location) => MoveHolds(cfg, s, origin, k, location, id);
    case Freeze(origin, k, allowDeposit) => FreezeHolds(cfg, s, origin, k, allowDeposit, id);
    case Unfreeze(origin, k) => UnfreezeHolds(cfg, s, origin, k, id);
  }

  lemma TokenCallHolds(cfg: Config, s: State, call: Call, id: AssetId)
    requires Sound(cfg, s) && id in s.contracts && Frozen(s, id) && !Managing(call) && !call.BalancesChanged?
    ensures Held(s, Apply(cfg, s, call), id)
  {
    match call
    case Deposits(asset, who) => DepositHolds(cfg, s, asset, who, id);
    case Withdraws(asset, who) => WithdrawHolds(cfg, s, asset, who, id);
    case Transfers(asset, from, to) => TransferHolds(cfg, s, asset, from, to, id);
    case HolderTransfers(k, from, to, amount) => HolderHolds(cfg, s, k, from, to, amount, id);
  }

  lemma StepHolds(cfg: Config, s: State, call: Call, id: AssetId)
    requires Sound(cfg, s) && id in s.contracts && Frozen(s, id) && !Unfreezes(s, call, id)
    ensures Held(s, Apply(cfg, s, call), id)
  {
    if Managing(call) {
      ManagingHolds(cfg, s, call, id);
    } else if call.BalancesChanged? {
      UntouchedIsHeld(s, Apply(cfg, s, call), id);
    } else {
      TokenCallHolds(cfg, s, call, id);
    }
  }

  /** Over any run in which nobody who may modify the asset unfreezes it. */
  lemma {:induction false} FrozenHolds(cfg: Config, s: State, calls: seq<Call>, id: AssetId)
    requires Sound(cfg, s) && id in s.contracts && Frozen(s, id)
    requires StaysFrozen(cfg, s, calls, id)
    ensures Held(s, Run(cfg, s, calls), id)
    decreases |calls|
  {
    if calls != [] {
      var t := Apply(cfg, s, calls[0]);
      StepHolds(cfg, s, calls[0], id);
      StepKeepsSound(cfg, s, calls[0]);
      FrozenHolds(cfg, t, calls[1..], id);
      forall who ensures Run(cfg, t, calls[1..]).contracts[id].BalanceOf(who) >= s.contracts[id].BalanceOf(who) {
        assert t.contracts[id].BalanceOf(who) >= s.contracts[id].BalanceOf(who);
      }
    }
  }
}
