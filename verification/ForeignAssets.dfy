/** `moonbeam-foreign-assets/src/lib.rs`: foreign assets, each an ERC-20 contract owned by the pallet.

    Calls run in a storage layer, so a failed call leaves the state as it was. The contract of an asset
    is ideal: it refuses to pause twice, to transfer while paused, and to burn or transfer what is not
    there. Whether the EVM deploys it is a parameter, and so is whether it mints while paused, which is
    settled by a base contract outside the repository. */
module ForeignAssets {
  import opened Integers
  import opened Xcm
  import opened Utf8

  type AssetId = nat
  type Account = nat
  type Address = nat

  datatype Status = Active | FrozenXcmDepositAllowed | FrozenXcmDepositForbidden

  datatype Contract = Contract(paused: bool, balances: map<Address, nat>) {
    function BalanceOf(who: Address): nat {
      if who in balances then balances[who] else 0
    }
  }

  datatype DepositDetails = DepositDetails(account: Account, deposit: nat)

  datatype Origin = FromXcm(location: Location) | Governance

  datatype Config = Config(
    maxForeignAssets: nat,
    creationDeposit: nat,
    filter: AssetId -> bool,
    siblingAccount: Location -> Option<Account>,
    toAddress: Location -> Option<Address>,
    deploys: (AssetId, seq<Byte>, seq<Byte>) -> bool,
    mintsWhilePaused: bool)

  datatype State = State(
    byId: map<AssetId, Location>,
    byLocation: map<Location, (AssetId, Status)>,
    details: map<AssetId, DepositDetails>,
    contracts: map<AssetId, Contract>,
    free: map<Account, nat>,
    reserved: map<Account, nat>)

  datatype Error =
    | AssetAlreadyExists
    | AssetAlreadyFrozen
    | AssetDoesNotExist
    | AssetIdFiltered
    | AssetNotFrozen
    | BadOrigin
    | CannotConvertLocationToAccount
    | CorruptedStorageOrphanLocation
    | Erc20ContractCreationFail
    | EvmCallPauseFail
    | EvmCallUnpauseFail
    | InsufficientBalance
    | InvalidSymbol
    | InvalidTokenName
    | LocationAlreadyExists
    | LocationOutsideOfOrigin
    | TooManyForeignAssets

  type Outcome = Result<(), Error>

  // ---------- The contract ----------

  function Pause(c: Contract): Option<Contract> {
    if c.paused then None else Some(c.(paused := true))
  }

  function Unpause(c: Contract): Option<Contract> {
    if !c.paused then None else Some(c.(paused := false))
  }

  function MintInto(cfg: Config, c: Contract, to: Address, amount: nat): Option<Contract> {
    if c.paused && !cfg.mintsWhilePaused then None
    else Some(c.(balances := c.balances[to := c.BalanceOf(to) + amount]))
  }

  function BurnFrom(cfg: Config, c: Contract, from: Address, amount: nat): Option<Contract> {
    if (c.paused && !cfg.mintsWhilePaused) || c.BalanceOf(from) < amount then None
    else Some(c.(balances := c.balances[from := c.BalanceOf(from) - amount]))
  }

  function Transfer(c: Contract, from: Address, to: Address, amount: nat): Option<Contract> {
    if c.paused || c.BalanceOf(from) < amount then None
    else
      var debited := c.(balances := c.balances[from := c.BalanceOf(from) - amount]);
      Some(debited.(balances := debited.balances[to := debited.BalanceOf(to) + amount]))
  }

  // ---------- Calls to the contract of an asset ----------

  // An EVM call to an address without code succeeds and changes nothing.

  function Called(s: State, id: AssetId, effect: Contract -> Option<Contract>): Option<State> {
    if id !in s.contracts then Some(s)
    else
      match effect(s.contracts[id])
      case None => None
      case Some(contract) => Some(s.(contracts := s.contracts[id := contract]))
  }

  /** `transfer` must also return true, which an address without code does not. */
  function CalledTransfer(s: State, id: AssetId, from: Address, to: Address, amount: nat): Result<State, string> {
    match Called(s, id, c => Transfer(c, from, to, amount))
    case None => Err("Erc20 contract call transfer fail")
    case Some(t) => if id in s.contracts then Ok(t) else Err("Erc20 contract return invalid value")
  }

  // ---------- Authority ----------

  /** Governance manages everything; an XCM origin what lies at its own location or below it. */
  ghost predicate Within(origin: Origin, location: Location) {
    match origin
    case Governance => true
    case FromXcm(own) => location.parents == own.parents && exists rest :: location.interior == own.interior + rest
  }

  predicate CanModify(origin: Origin, location: Location): (r: bool)
    ensures r <==> Within(origin, location)
  {
    assert origin.FromXcm? && location.StartsWith(origin.location) ==>
      location.interior == origin.location.interior + location.interior[|origin.location.interior|..];
    origin.FromXcm? ==> location.StartsWith(origin.location)
  }

  /** A parachain next to this one. */
  ghost predicate IsSibling(location: Location) {
    exists para :: location == Location(1, [Parachain(para)])
  }

  /** Governance creates assets without a deposit; a sibling pays from its sovereign account. */
  function Payer(cfg: Config, origin: Origin): Option<Account> {
    match origin
    case Governance => None
    case FromXcm(location) => cfg.siblingAccount(location)
  }

  ghost predicate MayCreate(cfg: Config, origin: Origin) {
    origin.FromXcm? ==> IsSibling(origin.location) && cfg.siblingAccount(origin.location).Some?
  }

  /** The sovereign account of a sibling parachain; other locations hold no deposits. */
  function DepositAccount(cfg: Config, origin: Origin): (r: Result<Option<Account>, Error>)
    ensures r == Err(BadOrigin) <==> origin.FromXcm? && !IsSibling(origin.location)
    ensures r == Ok(Payer(cfg, origin)) <==> MayCreate(cfg, origin)
    ensures r.Ok? <==> MayCreate(cfg, origin)
  {
    match origin
    case Governance => Ok(None)
    case FromXcm(location) =>
      if location.parents != 1 || |location.interior| != 1 || !location.interior[0].Parachain? then Err(BadOrigin)
      else
        assert location == Location(1, [Parachain(location.interior[0].id)]);
        match cfg.siblingAccount(location)
        case None => Err(CannotConvertLocationToAccount)
        case Some(account) => Ok(Some(account))
  }

  // ---------- Calls ----------

  /** The checks before the contract is deployed. */
  function CreationRefusal(cfg: Config, s: State, id: AssetId, location: Location, symbol: seq<Byte>, name: seq<Byte>)
    : Option<Error>
  {
    if id in s.byId then Some(AssetAlreadyExists)
    else if location in s.byLocation then Some(LocationAlreadyExists)
    else if |s.byId| >= cfg.maxForeignAssets then Some(TooManyForeignAssets)
    else if !cfg.filter(id) then Some(AssetIdFiltered)
    else if Decode(symbol).None? then Some(InvalidSymbol)
    else if Decode(name).None? then Some(InvalidTokenName)
    else None
  }

  function WithDeposit(cfg: Config, s: State, id: AssetId, account: Account): State
    requires cfg.creationDeposit <= Amount(s.free, account)
  {
    s.(free := s.free[account := Amount(s.free, account) - cfg.creationDeposit],
       reserved := s.reserved[account := Amount(s.reserved, account) + cfg.creationDeposit],
       details := s.details[id := DepositDetails(account, cfg.creationDeposit)])
  }

  /** The contract and the deposit. */
  function Deploy(cfg: Config, s: State, id: AssetId, symbol: seq<Byte>, name: seq<Byte>,
                  depositAccount: Option<Account>)
    : (State, Outcome)
  {
    if id in s.contracts || !cfg.deploys(id, symbol, name) then (s, Err(Erc20ContractCreationFail))
    else
      var deployed := s.(contracts := s.contracts[id := Contract(false, map[])]);
      match depositAccount
      case None => (deployed, Ok(()))
      case Some(account) =>
        if Amount(s.free, account) < cfg.creationDeposit then (s, Err(InsufficientBalance))
        else (WithDeposit(cfg, deployed, id, account), Ok(()))
  }

  function DoCreateAsset(cfg: Config, s: State, id: AssetId, location: Location, symbol: seq<Byte>, name: seq<Byte>,
                         depositAccount: Option<Account>): (State, Outcome)
  {
    match CreationRefusal(cfg, s, id, location, symbol, name)
    case Some(e) => (s, Err(e))
    case None =>
      var (t, r) := Deploy(cfg, s, id, symbol, name, depositAccount);
      if r.Err? then (s, r)
      else (t.(byId := s.byId[id := location], byLocation := s.byLocation[location := (id, Active)]), r)
  }

  function CreateForeignAsset(cfg: Config, s: State, origin: Origin, id: AssetId, location: Location,
                              symbol: seq<Byte>, name: seq<Byte>): (State, Outcome)
  {
    if !CanModify(origin, location) then (s, Err(LocationOutsideOfOrigin))
    else
      match DepositAccount(cfg, origin)
      case Err(e) => (s, Err(e))
      case Ok(account) => DoCreateAsset(cfg, s, id, location, symbol, name, account)
  }

  function DoChangeXcmLocation(s: State, id: AssetId, previous: Location, location: Location): (State, Outcome) {
    if location in s.byLocation then (s, Err(LocationAlreadyExists))
    else if previous !in s.byLocation then (s, Err(CorruptedStorageOrphanLocation))
    else
      (s.(byId := s.byId[id := location],
          byLocation := (s.byLocation - {previous})[location := (id, s.byLocation[previous].1)]),
       Ok(()))
  }

  function ChangeXcmLocation(s: State, origin: Origin, id: AssetId, location: Location): (State, Outcome) {
    if !CanModify(origin, location) then (s, Err(LocationOutsideOfOrigin))
    else if id !in s.byId then (s, Err(AssetDoesNotExist))
    else if !CanModify(origin, s.byId[id]) then (s, Err(LocationOutsideOfOrigin))
    else DoChangeXcmLocation(s, id, s.byId[id], location)
  }

  function DoFreezeAsset(s: State, id: AssetId, location: Location, allowDeposit: bool): (State, Outcome) {
    if location !in s.byLocation then (s, Err(CorruptedStorageOrphanLocation))
    else if s.byLocation[location].1 != Active then (s, Err(AssetAlreadyFrozen))
    else
      match Called(s, id, c => Pause(c))
      case None => (s, Err(EvmCallPauseFail))
      case Some(t) =>
        var frozen := if allowDeposit then FrozenXcmDepositAllowed else FrozenXcmDepositForbidden;
        (t.(byLocation := s.byLocation[location := (id, frozen)]), Ok(()))
  }

  function FreezeForeignAsset(s: State, origin: Origin, id: AssetId, allowDeposit: bool): (State, Outcome) {
    if id !in s.byId then (s, Err(AssetDoesNotExist))
    else if !CanModify(origin, s.byId[id]) then (s, Err(LocationOutsideOfOrigin))
    else DoFreezeAsset(s, id, s.byId[id], allowDeposit)
  }

  function DoUnfreezeAsset(s: State, id: AssetId, location: Location): (State, Outcome) {
    if location !in s.byLocation then (s, Err(CorruptedStorageOrphanLocation))
    else if s.byLocation[location].1 == Active then (s, Err(AssetNotFrozen))
    else
      match Called(s, id, c => Unpause(c))
      case None => (s, Err(EvmCallUnpauseFail))
      case Some(t) => (t.(byLocation := s.byLocation[location := (id, Active)]), Ok(()))
  }

  function UnfreezeForeignAsset(s: State, origin: Origin, id: AssetId): (State, Outcome) {
    if id !in s.byId then (s, Err(AssetDoesNotExist))
    else if !CanModify(origin, s.byId[id]) then (s, Err(LocationOutsideOfOrigin))
    else DoUnfreezeAsset(s, id, s.byId[id])
  }

  // ---------- The XCM executor ----------

  function MatchAsset(s: State, asset: Asset): Result<(AssetId, nat, Status), XcmError> {
    match asset.fun
    case NonFungible(_) => Err(AssetNotHandled)
    case Fungible(amount) =>
      if asset.id !in s.byLocation then Err(AssetNotHandled)
      else Ok((s.byLocation[asset.id].0, amount, s.byLocation[asset.id].1))
  }

  function XcmDeposit(cfg: Config, s: State, what: Asset, who: Location): (State, Result<(), XcmError>) {
    match MatchAsset(s, what)
    case Err(e) => (s, Err(e))
    case Ok((id, amount, status)) =>
      if status == FrozenXcmDepositForbidden then (s, Err(AssetNotHandled))
      else
        match cfg.toAddress(who)
        case None => (s, Err(AccountIdConversionFailed))
        case Some(to) =>
          match Called(s, id, c => MintInto(cfg, c, to, amount))
          case None => (s, Err(FailedToTransactAsset("Erc20 contract call mintInto fail+")))
          case Some(t) => (t, Ok(()))
  }

  function XcmInternalTransfer(cfg: Config, s: State, asset: Asset, from: Location, to: Location)
    : (State, Result<(), XcmError>)
  {
    match MatchAsset(s, asset)
    case Err(e) => (s, Err(e))
    case Ok((id, amount, status)) =>
      if status != Active then (s, Err(AssetNotHandled))
      else if cfg.toAddress(from).None? || cfg.toAddress(to).None? then (s, Err(AccountIdConversionFailed))
      else
        match CalledTransfer(s, id, cfg.toAddress(from).value, cfg.toAddress(to).value, amount)
        case Err(reason) => (s, Err(FailedToTransactAsset(reason)))
        case Ok(t) => (t, Ok(()))
  }

  function XcmWithdraw(cfg: Config, s: State, what: Asset, who: Location): (State, Result<(), XcmError>) {
    match MatchAsset(s, what)
    case Err(e) => (s, Err(e))
    case Ok((id, amount, status)) =>
      match cfg.toAddress(who)
      case None => (s, Err(AccountIdConversionFailed))
      case Some(from) =>
        if status != Active then (s, Err(AssetNotHandled))
        else
          match Called(s, id, c => BurnFrom(cfg, c, from, amount))
          case None => (s, Err(FailedToTransactAsset("Erc20 contract call burnFrom fail")))
          case Some(t) => (t, Ok(()))
  }

  /** A holder calls `transfer` on the contract directly. */
  function HolderTransfer(s: State, id: AssetId, from: Address, to: Address, amount: nat): State {
    Called(s, id, c => Transfer(c, from, to, amount)).GetOr(s)
  }

  function Convert(s: State, location: Location): Option<AssetId> {
    if location in s.byLocation then Some(s.byLocation[location].0) else None
  }

  function ConvertBack(s: State, id: AssetId): Option<Location> {
    if id in s.byId then Some(s.byId[id]) else None
  }

  // ---------- The pallet ----------

  class Pallet {
    const cfg: Config
    var assetsById: map<AssetId, Location>
    var assetsByLocation: map<Location, (AssetId, Status)>
    var assetsCreationDetails: map<AssetId, DepositDetails>
    var contracts: map<AssetId, Contract>
    var free: map<Account, nat>
    var reserved: map<Account, nat>

    function Abs(): State
      reads this
    {
      State(assetsById, assetsByLocation, assetsCreationDetails, contracts, free, reserved)
    }

    constructor (cfg: Config, free: map<Account, nat>)
      ensures this.cfg == cfg
      ensures Abs() == State(map[], map[], map[], map[], free, map[])
    {
      this.cfg := cfg;
      assetsById, assetsByLocation, assetsCreationDetails, contracts := map[], map[], map[], map[];
      this.free, reserved := free, map[];
    }

    method Erc20Create(id: AssetId, symbol: seq<Byte>, name: seq<Byte>) returns (ok: bool)
      modifies this`contracts
      ensures ok <==> id !in old(contracts) && cfg.deploys(id, symbol, name)
      ensures contracts == if ok then old(contracts)[id := Contract(false, map[])] else old(contracts)
    {
      if id in contracts || !cfg.deploys(id, symbol, name) {
        return false;
      }
      contracts := contracts[id := Contract(false, map[])];
      return true;
    }

    method Erc20SetPaused(id: AssetId, paused: bool) returns (ok: bool)
      modifies this`contracts
      ensures !ok <==> id in old(contracts) && old(contracts)[id].paused == paused
      ensures contracts == if ok && id in old(contracts)
                           then old(contracts)[id := old(contracts)[id].(paused := paused)] else old(contracts)
    {
      if id !in contracts {
        return true;
      }
      if contracts[id].paused == paused {
        return false;
      }
      contracts := contracts[id := contracts[id].(paused := paused)];
      return true;
    }

    method Erc20MintInto(id: AssetId, to: Address, amount: nat) returns (ok: bool)
      modifies this`contracts
      ensures Called(old(Abs()), id, c => MintInto(cfg, c, to, amount)) == if ok then Some(Abs()) else None
      ensures !ok ==> contracts == old(contracts)
    {
      if id !in contracts {
        return true;
      }
      var contract := contracts[id];
      if contract.paused && !cfg.mintsWhilePaused {
        return false;
      }
      contracts := contracts[id := contract.(balances := contract.balances[to := contract.BalanceOf(to) + amount])];
      return true;
    }

    method Erc20BurnFrom(id: AssetId, from: Address, amount: nat) returns (ok: bool)
      modifies this`contracts
      ensures Called(old(Abs()), id, c => BurnFrom(cfg, c, from, amount)) == if ok then Some(Abs()) else None
      ensures !ok ==> contracts == old(contracts)
    {
      if id !in contracts {
        return true;
      }
      var contract := contracts[id];
      if (contract.paused && !cfg.mintsWhilePaused) || contract.BalanceOf(from) < amount {
        return false;
      }
      contracts := contracts[id := contract.(balances := contract.balances[from := contract.BalanceOf(from) - amount])];
      return true;
    }

    method Erc20Transfer(id: AssetId, from: Address, to: Address, amount: nat) returns (ok: bool)
      modifies this`contracts
      ensures Called(old(Abs()), id, c => Transfer(c, from, to, amount)) == if ok then Some(Abs()) else None
      ensures !ok ==> contracts == old(contracts)
    {
      if id !in contracts {
        return true;
      }
      var contract := contracts[id];
      if contract.paused || contract.BalanceOf(from) < amount {
        return false;
      }
      contract := contract.(balances := contract.balances[from := contract.BalanceOf(from) - amount]);
      contract := contract.(balances := contract.balances[to := contract.BalanceOf(to) + amount]);
      contracts := contracts[id := contract];
      return true;
    }

    method TakeDeposit(id: AssetId, account: Account) returns (ok: bool)
      modifies this`free, this`reserved, this`assetsCreationDetails
      ensures ok <==> cfg.creationDeposit <= Amount(old(free), account)
      ensures !ok ==> Abs() == old(Abs())
      ensures ok ==> Abs() == WithDeposit(cfg, old(Abs()), id, account)
    {
      if Amount(free, account) < cfg.creationDeposit {
        return false;
      }
      free := free[account := Amount(free, account) - cfg.creationDeposit];
      reserved := reserved[account := Amount(reserved, account) + cfg.creationDeposit];
      assetsCreationDetails := assetsCreationDetails[id := DepositDetails(account, cfg.creationDeposit)];
      return true;
    }

    /** The checks before the contract is deployed. */
    method CheckCreation(id: AssetId, location: Location, symbol: seq<Byte>, name: seq<Byte>) returns (e: Option<Error>)
      ensures e == CreationRefusal(cfg, Abs(), id, location, symbol, name)
    {
      if id in assetsById {
        return Some(AssetAlreadyExists);
      }
      if location in assetsByLocation {
        return Some(LocationAlreadyExists);
      }
      if |assetsById| >= cfg.maxForeignAssets {
        return Some(TooManyForeignAssets);
      }
      if !cfg.filter(id) {
        return Some(AssetIdFiltered);
      }
      if Decode(symbol).None? {
        return Some(InvalidSymbol);
      }
      if Decode(name).None? {
        return Some(InvalidTokenName);
      }
      return None;
    }

    /** The contract and the deposit. The storage layer of the call takes the new contract back when the
        deposit cannot be reserved. */
    method DeployAndReserve(id: AssetId, symbol: seq<Byte>, name: seq<Byte>, depositAccount: Option<Account>)
      returns (r: Outcome)
      modifies this`contracts, this`free, this`reserved, this`assetsCreationDetails
      ensures (Abs(), r) == Deploy(cfg, old(Abs()), id, symbol, name, depositAccount)
      ensures r.Err? ==> Abs() == old(Abs())
    {
      var snapshot := contracts;
      var created := Erc20Create(id, symbol, name);
      if !created {
        return Err(Erc20ContractCreationFail);
      }
      if depositAccount.Some? {
        var taken := TakeDeposit(id, depositAccount.value);
        if !taken {
          contracts := snapshot;
          return Err(InsufficientBalance);
        }
      }
      return Ok(());
    }

    method CreateAsset(id: AssetId, location: Location, symbol: seq<Byte>, name: seq<Byte>,
                       depositAccount: Option<Account>) returns (r: Outcome)
      modifies this
      ensures (Abs(), r) == DoCreateAsset(cfg, old(Abs()), id, location, symbol, name, depositAccount)
      ensures r.Err? ==> Abs() == old(Abs())
    {
      var refused := CheckCreation(id, location, symbol, name);
      if refused.Some? {
        return Err(refused.value);
      }
      r := DeployAndReserve(id, symbol, name, depositAccount);
      if r.Ok? {
        assetsById := assetsById[id := location];
        assetsByLocation := assetsByLocation[location := (id, Active)];
      }
    }

    method Create(origin: Origin, id: AssetId, location: Location, symbol: seq<Byte>, name: seq<Byte>)
      returns (r: Outcome)
      modifies this
      ensures (Abs(), r) == CreateForeignAsset(cfg, old(Abs()), origin, id, location, symbol, name)
      ensures r.Err? ==> Abs() == old(Abs())
      ensures r.Ok? ==> Convert(Abs(), location) == Some(id) && ConvertBack(Abs(), id) == Some(location)
      ensures r.Ok? && origin.FromXcm? ==>
        var payer := cfg.siblingAccount(origin.location);
        && payer.Some? && id in assetsCreationDetails
        && assetsCreationDetails[id] == DepositDetails(payer.value, cfg.creationDeposit)
        && Amount(free, payer.value) + cfg.creationDeposit == Amount(old(free), payer.value)
        && Amount(reserved, payer.value) == Amount(old(reserved), payer.value) + cfg.creationDeposit
      ensures r.Ok? && origin.Governance? ==> free == old(free) && reserved == old(reserved)
      ensures r == Err(LocationOutsideOfOrigin) <==> !Within(origin, location)
    {
      if !CanModify(origin, location) {
        return Err(LocationOutsideOfOrigin);
      }
      var account := DepositAccount(cfg, origin);
      if account.Err? {
        return Err(account.error);
      }
      r := CreateAsset(id, location, symbol, name, account.value);
    }

    method ChangeLocation(origin: Origin, id: AssetId, location: Location) returns (r: Outcome)
      modifies this`assetsById, this`assetsByLocation
      ensures (Abs(), r) == ChangeXcmLocation(old(Abs()), origin, id, location)
      ensures r.Err? ==> Abs() == old(Abs())
      ensures r.Ok? ==> Convert(Abs(), location) == Some(id) && ConvertBack(Abs(), id) == Some(location)
      ensures r.Ok? ==> Convert(Abs(), old(assetsById[id])) == None
    {
      if !CanModify(origin, location) {
        return Err(LocationOutsideOfOrigin);
      }
      if id !in assetsById {
        return Err(AssetDoesNotExist);
      }
      var previous := assetsById[id];
      if !CanModify(origin, previous) {
        return Err(LocationOutsideOfOrigin);
      }
      if location in assetsByLocation {
        return Err(LocationAlreadyExists);
      }
      if previous !in assetsByLocation {
        return Err(CorruptedStorageOrphanLocation);
      }
      var status := assetsByLocation[previous].1;
      assetsByLocation := assetsByLocation - {previous};
      assetsById := assetsById[id := location];
      assetsByLocation := assetsByLocation[location := (id, status)];
      return Ok(());
    }

    method Freeze(origin: Origin, id: AssetId, allowXcmDeposit: bool) returns (r: Outcome)
      modifies this`assetsByLocation, this`contracts
      ensures (Abs(), r) == FreezeForeignAsset(old(Abs()), origin, id, allowXcmDeposit)
      ensures r.Err? ==> Abs() == old(Abs())
      ensures r.Ok? && id in contracts ==>
        contracts[id].paused && contracts[id].balances == old(contracts[id].balances)
    {
      if id !in assetsById {
        return Err(AssetDoesNotExist);
      }
      var location := assetsById[id];
      if !CanModify(origin, location) {
        return Err(LocationOutsideOfOrigin);
      }
      if location !in assetsByLocation {
        return Err(CorruptedStorageOrphanLocation);
      }
      if assetsByLocation[location].1 != Active {
        return Err(AssetAlreadyFrozen);
      }
      var ok := Erc20SetPaused(id, true);
      if !ok {
        return Err(EvmCallPauseFail);
      }
      var status := if allowXcmDeposit then FrozenXcmDepositAllowed else FrozenXcmDepositForbidden;
      assetsByLocation := assetsByLocation[location := (id, status)];
      return Ok(());
    }

    method Unfreeze(origin: Origin, id: AssetId) returns (r: Outcome)
      modifies this`assetsByLocation, this`contracts
      ensures (Abs(), r) == UnfreezeForeignAsset(old(Abs()), origin, id)
      ensures r.Err? ==> Abs() == old(Abs())
      ensures r.Ok? && id in contracts ==>
        !contracts[id].paused && contracts[id].balances == old(contracts[id].balances)
    {
      if id !in assetsById {
        return Err(AssetDoesNotExist);
      }
      var location := assetsById[id];
      if !CanModify(origin, location) {
        return Err(LocationOutsideOfOrigin);
      }
      if location !in assetsByLocation {
        return Err(CorruptedStorageOrphanLocation);
      }
      if assetsByLocation[location].1 == Active {
        return Err(AssetNotFrozen);
      }
      var ok := Erc20SetPaused(id, false);
      if !ok {
        return Err(EvmCallUnpauseFail);
      }
      assetsByLocation := assetsByLocation[location := (id, Active)];
      return Ok(());
    }

    method DepositAsset(what: Asset, who: Location) returns (r: Result<(), XcmError>)
      modifies this`contracts
      ensures (Abs(), r) == XcmDeposit(cfg, old(Abs()), what, who)
      ensures r.Err? ==> Abs() == old(Abs())
    {
      var matched := MatchAsset(Abs(), what);
      if matched.Err? {
        return Err(matched.error);
      }
      var (id, amount, status) := matched.value;
      if status == FrozenXcmDepositForbidden {
        return Err(AssetNotHandled);
      }
      var beneficiary := cfg.toAddress(who);
      if beneficiary.None? {
        return Err(AccountIdConversionFailed);
      }
      var ok := Erc20MintInto(id, beneficiary.value, amount);
      if !ok {
        return Err(FailedToTransactAsset("Erc20 contract call mintInto fail+"));
      }
      return Ok(());
    }

    method InternalTransferAsset(asset: Asset, from: Location, to: Location) returns (r: Result<(), XcmError>)
      modifies this`contracts
      ensures (Abs(), r) == XcmInternalTransfer(cfg, old(Abs()), asset, from, to)
      ensures r.Err? ==> Abs() == old(Abs())
    {
      var matched := MatchAsset(Abs(), asset);
      if matched.Err? {
        return Err(matched.error);
      }
      var (id, amount, status) := matched.value;
      if status != Active {
        return Err(AssetNotHandled);
      }
      var source, destination := cfg.toAddress(from), cfg.toAddress(to);
      if source.None? || destination.None? {
        return Err(AccountIdConversionFailed);
      }
      var ok := Erc20Transfer(id, source.value, destination.value, amount);
      if !ok {
        return Err(FailedToTransactAsset("Erc20 contract call transfer fail"));
      }
      // The return value shows whether there is a contract at all.
      if id !in contracts {
        return Err(FailedToTransactAsset("Erc20 contract return invalid value"));
      }
      return Ok(());
    }

    method WithdrawAsset(what: Asset, who: Location) returns (r: Result<(), XcmError>)
      modifies this`contracts
      ensures (Abs(), r) == XcmWithdraw(cfg, old(Abs()), what, who)
      ensures r.Err? ==> Abs() == old(Abs())
    {
      var matched := MatchAsset(Abs(), what);
      if matched.Err? {
        return Err(matched.error);
      }
      var (id, amount, status) := matched.value;
      var holder := cfg.toAddress(who);
      if holder.None? {
        return Err(AccountIdConversionFailed);
      }
      if status != Active {
        return Err(AssetNotHandled);
      }
      var ok := Erc20BurnFrom(id, holder.value, amount);
      if !ok {
        return Err(FailedToTransactAsset("Erc20 contract call burnFrom fail"));
      }
      return Ok(());
    }
  }
}
