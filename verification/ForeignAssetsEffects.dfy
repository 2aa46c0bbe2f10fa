/** What each call on foreign assets changes, in terms of lookups and holdings only. */
module ForeignAssetsEffects {
  import opened Integers
  import opened Xcm
  import opened Utf8
  import opened ForeignAssets
  import opened ForeignAssetsRuns

  // ---------- Creation ----------

  ghost predicate Creatable(cfg: Config, s: State, origin: Origin, id: AssetId, location: Location,
                      symbol: seq<Byte>, name: seq<Byte>)
  {
    var payer := Payer(cfg, origin);
    && Within(origin, location) && MayCreate(cfg, origin)
    && ConvertBack(s, id) == None && Convert(s, location) == None
    && |s.byId| < cfg.maxForeignAssets && cfg.filter(id)
    && Decode(symbol).Some? && Decode(name).Some? && cfg.deploys(id, symbol, name)
    && (payer.Some? ==> cfg.creationDeposit <= Amount(s.free, payer.value))
  }

  lemma CreateSucceedsExactly(cfg: Config, s: State, origin: Origin, id: AssetId, location: Location,
                              symbol: seq<Byte>, name: seq<Byte>)
    requires Sound(cfg, s)
    ensures CreateForeignAsset(cfg, s, origin, id, location, symbol, name).1.Ok?
       <==> Creatable(cfg, s, origin, id, location, symbol, name)
  {
  }

  function Holding(s: State, id: AssetId, who: Address): nat {
    if id in s.contracts then s.contracts[id].BalanceOf(who) else 0
  }

  /** Who paid the deposit of an asset. */
  function CreatorOf(s: State, id: AssetId): Option<Account> {
    if id in s.details then Some(s.details[id].account) else None
  }

  /** The whole state of a new asset. */
  lemma CreateMeans(cfg: Config, s: State, origin: Origin, id: AssetId, location: Location,
                    symbol: seq<Byte>, name: seq<Byte>)
    requires Sound(cfg, s) && CreateForeignAsset(cfg, s, origin, id, location, symbol, name).1.Ok?
    ensures var t := CreateForeignAsset(cfg, s, origin, id, location, symbol, name).0;
            && ConvertBack(t, id) == Some(location) && StatusOf(t, id) == Some(Active)
            && (forall who :: Holding(t, id, who) == 0)
            && (forall k :: k != id ==> ConvertBack(t, k) == ConvertBack(s, k) && StatusOf(t, k) == StatusOf(s, k))
            && (forall k, who :: k != id ==> Holding(t, k, who) == Holding(s, k, who))
            && (forall k :: CreatorOf(t, k) == if k == id then Payer(cfg, origin) else CreatorOf(s, k))
  {
    var account := DepositAccount(cfg, origin).value;
    CreationEffect(cfg, s, id, location, symbol, name, account);
    AddedMeans(s, id, location, CreateForeignAsset(cfg, s, origin, id, location, symbol, name).0);
  }

  lemma AddedMeans(s: State, id: AssetId, location: Location, t: State)
    requires Inverse(s) && Added(s, id, location, t)
    ensures ConvertBack(t, id) == Some(location) && StatusOf(t, id) == Some(Active)
    ensures forall who :: Holding(t, id, who) == 0
    ensures forall k :: k != id ==> ConvertBack(t, k) == ConvertBack(s, k) && StatusOf(t, k) == StatusOf(s, k)
    ensures forall k, who :: k != id ==> Holding(t, k, who) == Holding(s, k, who)
  {
    AddedStatus(s, id, location, t);
  }

  /** What an account pays for a creation. */
  function Paid(cfg: Config, s: State, call: Call, a: Account): nat {
    if call.Create? && Dispatch(cfg, s, call).1.Ok? && Payer(cfg, call.origin) == Some(a)
    then cfg.creationDeposit else 0
  }

  /** A sibling pays its deposit into its reserve; nobody else's balance moves. */
  lemma CreateConserves(cfg: Config, s: State, call: Call, a: Account)
    requires call.Create?
    ensures var t := Dispatch(cfg, s, call).0;
            && Amount(t.free, a) == Amount(s.free, a) - Paid(cfg, s, call, a)
            && Amount(t.reserved, a) == Amount(s.reserved, a) + Paid(cfg, s, call, a)
  {
    CreateDispatches(cfg, s, call);
    if CanModify(call.origin, call.location) && DepositAccount(cfg, call.origin).Ok? {
      DeployConserves(cfg, s, call.id, call.symbol, call.name, DepositAccount(cfg, call.origin).value, a);
    }
  }

  lemma DeployConserves(cfg: Config, s: State, id: AssetId, symbol: seq<Byte>, name: seq<Byte>,
                        account: Option<Account>, a: Account)
    ensures var (t, r) := Deploy(cfg, s, id, symbol, name, account);
            var paid := if r.Ok? && account == Some(a) then cfg.creationDeposit else 0;
            && Amount(t.free, a) == Amount(s.free, a) - paid
            && Amount(t.reserved, a) == Amount(s.reserved, a) + paid
  {
  }

  lemma OnlyCreationPays(cfg: Config, s: State, call: Call)
    requires Managing(call) && !call.Create?
    ensures Dispatch(cfg, s, call).0.free == s.free && Dispatch(cfg, s, call).0.reserved == s.reserved
  {
  }

  lemma BalancesPaid(cfg: Config, s: State, call: Call, a: Account)
    requires Managing(call)
    ensures var t := Dispatch(cfg, s, call).0;
            && Amount(t.free, a) == Amount(s.free, a) - Paid(cfg, s, call, a)
            && Amount(t.reserved, a) == Amount(s.reserved, a) + Paid(cfg, s, call, a)
  {
    if call.Create? {
      CreateConserves(cfg, s, call, a);
    } else {
      OnlyCreationPays(cfg, s, call);
    }
  }

  /** What the rest of the runtime brings to an account, free or reserved. */
  function Income(s: State, call: Call, a: Account): int {
    if call.BalancesChanged? && call.account == a
    then call.free + call.reserved - Amount(s.free, a) - Amount(s.reserved, a) else 0
  }

  function TotalIncome(cfg: Config, s: State, calls: seq<Call>, a: Account): int
    decreases |calls|
  {
    if calls == [] then 0 else Income(s, calls[0], a) + TotalIncome(cfg, Apply(cfg, s, calls[0]), calls[1..], a)
  }

  lemma StepConservesBalances(cfg: Config, s: State, call: Call, a: Account)
    ensures var t := Apply(cfg, s, call);
            Amount(t.free, a) + Amount(t.reserved, a) == Amount(s.free, a) + Amount(s.reserved, a) + Income(s, call, a)
  {
    if Managing(call) {
      BalancesPaid(cfg, s, call, a);
    } else if !call.BalancesChanged? {
      TokenCallsMoveBalances(cfg, s, call);
    }
  }

  /** No call of the pallet takes native balance from anybody: over every run, from any state, free plus reserved
      of each account changes by outside income alone. */
  lemma {:induction false} RunConservesBalances(cfg: Config, s: State, calls: seq<Call>, a: Account)
    ensures var t := Run(cfg, s, calls);
            Amount(t.free, a) + Amount(t.reserved, a)
              == Amount(s.free, a) + Amount(s.reserved, a) + TotalIncome(cfg, s, calls, a)
    decreases |calls|
  {
    if calls != [] {
      StepConservesBalances(cfg, s, calls[0], a);
      RunConservesBalances(cfg, Apply(cfg, s, calls[0]), calls[1..], a);
    }
  }

  // ---------- Deposits ----------

  function CreatedBy(s: State, account: Account): set<AssetId> {
    set id | id in s.details && s.details[id].account == account
  }

  /** What a call of the rest of the runtime adds to an account's reserve. */
  function OthersReserve(s: State, call: Call, a: Account): int {
    if call.BalancesChanged? && call.account == a then call.reserved - Amount(s.reserved, a) else 0
  }

  function TotalOthersReserve(cfg: Config, s: State, calls: seq<Call>, a: Account): int
    decreases |calls|
  {
    if calls == [] then 0
    else OthersReserve(s, calls[0], a) + TotalOthersReserve(cfg, Apply(cfg, s, calls[0]), calls[1..], a)
  }

  function Deposited(cfg: Config, s: State, a: Account): nat {
    |CreatedBy(s, a)| * cfg.creationDeposit
  }

  lemma OneMore(n: nat, d: nat)
    ensures (n + 1) * d == n * d + d
  {
  }

  lemma CreatedByOneMore(s: State, t: State, id: AssetId, details: DepositDetails, a: Account)
    requires id !in s.details && t.details == s.details[id := details]
    ensures |CreatedBy(t, a)| == |CreatedBy(s, a)| + if details.account == a then 1 else 0
  {
    if details.account == a {
      assert CreatedBy(t, a) == CreatedBy(s, a) + {id};
    } else {
      assert CreatedBy(t, a) == CreatedBy(s, a);
    }
  }

  lemma ChargedIsCounted(cfg: Config, s: State, id: AssetId, account: Option<Account>, t: State, a: Account)
    requires id !in s.details && Charged(cfg, s, id, account, t)
    ensures Amount(t.reserved, a) - Deposited(cfg, t, a) == Amount(s.reserved, a) - Deposited(cfg, s, a)
  {
    if account.Some? {
      CreatedByOneMore(s, t, id, DepositDetails(account.value, cfg.creationDeposit), a);
      OneMore(|CreatedBy(s, a)|, cfg.creationDeposit);
    } else {
      assert CreatedBy(t, a) == CreatedBy(s, a);
    }
  }

  lemma CreateReserves(cfg: Config, s: State, call: Call, a: Account)
    requires Sound(cfg, s) && call.Create?
    ensures var t := Dispatch(cfg, s, call).0;
            Amount(t.reserved, a) - Deposited(cfg, t, a) == Amount(s.reserved, a) - Deposited(cfg, s, a)
  {
    CreateDispatches(cfg, s, call);
    if CanModify(call.origin, call.location) && DepositAccount(cfg, call.origin).Ok? {
      var account := DepositAccount(cfg, call.origin).value;
      CreationEffect(cfg, s, call.id, call.location, call.symbol, call.name, account);
      if Dispatch(cfg, s, call).1.Ok? {
        ChargedIsCounted(cfg, s, call.id, account, Dispatch(cfg, s, call).0, a);
      }
    }
  }

  lemma OthersKeepDetails(cfg: Config, s: State, call: Call)
    requires !call.Create?
    ensures Apply(cfg, s, call).details == s.details
    ensures !call.BalancesChanged? ==> Apply(cfg, s, call).reserved == s.reserved
  {
    if !Managing(call) && !call.BalancesChanged? {
      TokenCallsMoveBalances(cfg, s, call);
    }
  }

  lemma StepReserves(cfg: Config, s: State, call: Call, a: Account)
    requires Sound(cfg, s)
    ensures var t := Apply(cfg, s, call);
            Amount(t.reserved, a) - Deposited(cfg, t, a)
              == Amount(s.reserved, a) - Deposited(cfg, s, a) + OthersReserve(s, call, a)
  {
    if call.Create? {
      CreateReserves(cfg, s, call, a);
    } else {
      OthersKeepDetails(cfg, s, call);
      assert CreatedBy(Apply(cfg, s, call), a) == CreatedBy(s, a);
    }
  }

  lemma {:induction false} RunReserves(cfg: Config, s: State, calls: seq<Call>, a: Account)
    requires Sound(cfg, s)
    ensures var t := Run(cfg, s, calls);
            Amount(t.reserved, a) - Deposited(cfg, t, a)
              == Amount(s.reserved, a) - Deposited(cfg, s, a) + TotalOthersReserve(cfg, s, calls, a)
    decreases |calls|
  {
    if calls != [] {
      StepReserves(cfg, s, calls[0], a);
      StepKeepsSound(cfg, s, calls[0]);
      RunReserves(cfg, Apply(cfg, s, calls[0]), calls[1..], a);
    }
  }

  /** In every run an account's reserve is what the rest of the runtime reserved, plus one creation deposit for
      each asset recorded as created by it. */
  lemma ReservesMatchAssets(cfg: Config, calls: seq<Call>, a: Account)
    ensures var s := Run(cfg, EMPTY, calls);
            && CreatedBy(s, a) <= s.byId.Keys
            && Amount(s.reserved, a) == Deposited(cfg, s, a) + TotalOthersReserve(cfg, EMPTY, calls, a)
  {
    EmptyIsSound(cfg);
    RunKeepsSound(cfg, EMPTY, calls);
    RunReserves(cfg, EMPTY, calls, a);
    NothingDeposited(cfg, a);
  }

  lemma NothingDeposited(cfg: Config, a: Account)
    ensures Amount(EMPTY.reserved, a) == 0 && Deposited(cfg, EMPTY, a) == 0
  {
    assert CreatedBy(EMPTY, a) == {};
  }

  // ---------- Location and status ----------

  lemma ChangeMeans(cfg: Config, s: State, origin: Origin, id: AssetId, location: Location)
    requires Sound(cfg, s) && ChangeXcmLocation(s, origin, id, location).1.Ok?
    ensures var t := ChangeXcmLocation(s, origin, id, location).0;
            && t == s.(byId := t.byId, byLocation := t.byLocation)
            && (forall k :: ConvertBack(t, k) == if k == id then Some(location) else ConvertBack(s, k))
            && (forall k :: StatusOf(t, k) == StatusOf(s, k))
            && Convert(t, s.byId[id]) == None
  {
    MovedKeepsInverse(s, id, location, ChangeXcmLocation(s, origin, id, location).0);
  }

  lemma SwitchMovesNothing(s: State, id: AssetId, status: Status, t: State)
    requires id in s.byId && id in s.contracts && Switched(s, id, status, t)
    ensures t == s.(byLocation := t.byLocation, contracts := t.contracts)
    ensures forall k, who :: Holding(t, k, who) == Holding(s, k, who)
  {
  }

  lemma FreezeMeans(cfg: Config, s: State, origin: Origin, id: AssetId, allowDeposit: bool)
    requires Sound(cfg, s) && FreezeForeignAsset(s, origin, id, allowDeposit).1.Ok?
    ensures var t := FreezeForeignAsset(s, origin, id, allowDeposit).0;
            && (forall k :: StatusOf(t, k) == if k == id then Some(FrozenStatus(allowDeposit)) else StatusOf(s, k))
            && t == s.(byLocation := t.byLocation, contracts := t.contracts)
            && (forall k, who :: Holding(t, k, who) == Holding(s, k, who))
  {
    var t := FreezeForeignAsset(s, origin, id, allowDeposit).0;
    FreezeSwitches(cfg, s, origin, id, allowDeposit);
    SwitchKeepsSound(cfg, s, id, FrozenStatus(allowDeposit), t);
    SwitchMovesNothing(s, id, FrozenStatus(allowDeposit), t);
  }

  lemma UnfreezeMeans(cfg: Config, s: State, origin: Origin, id: AssetId)
    requires Sound(cfg, s) && UnfreezeForeignAsset(s, origin, id).1.Ok?
    ensures var t := UnfreezeForeignAsset(s, origin, id).0;
            && (forall k :: StatusOf(t, k) == if k == id then Some(Active) else StatusOf(s, k))
            && t == s.(byLocation := t.byLocation, contracts := t.contracts)
            && (forall k, who :: Holding(t, k, who) == Holding(s, k, who))
  {
    var t := UnfreezeForeignAsset(s, origin, id).0;
    UnfreezeSwitches(cfg, s, origin, id);
    SwitchKeepsSound(cfg, s, id, Active, t);
    SwitchMovesNothing(s, id, Active, t);
  }

  // ---------- Tokens ----------

  /** What the executor moves: the asset and amount of a call it carries out. */
  function Moves(s: State, asset: Asset, id: AssetId): nat {
    if asset.fun.Fungible? && Convert(s, asset.id) == Some(id) then asset.fun.amount else 0
  }

  /** What a call brings to a holder of an asset: what it mints less what it burns, and both ends of a
      transfer. A call that fails brings nothing. */
  function Flow(cfg: Config, s: State, call: Call, id: AssetId, who: Address): int {
    match call
    case Deposits(asset, to) =>
      if XcmDeposit(cfg, s, asset, to).1.Ok? && cfg.toAddress(to) == Some(who) then Moves(s, asset, id) else 0
    case Withdraws(asset, from) =>
      if XcmWithdraw(cfg, s, asset, from).1.Ok? && cfg.toAddress(from) == Some(who) then 0 - Moves(s, asset, id) else 0
    case Transfers(asset, from, to) =>
      if XcmInternalTransfer(cfg, s, asset, from, to).1.Err? then 0
      else (if cfg.toAddress(to) == Some(who) then Moves(s, asset, id) else 0)
           - (if cfg.toAddress(from) == Some(who) then Moves(s, asset, id) else 0)
    case HolderTransfers(k, from, to, amount) =>
      if k != id || id !in s.contracts || Transfer(s.contracts[id], from, to, amount).None? then 0
      else (if to == who then amount else 0) - (if from == who then amount else 0)
    case _ => 0
  }

  function TotalFlow(cfg: Config, s: State, calls: seq<Call>, id: AssetId, who: Address): int
    decreases |calls|
  {
    if calls == [] then 0
    else Flow(cfg, s, calls[0], id, who) + TotalFlow(cfg, Apply(cfg, s, calls[0]), calls[1..], id, who)
  }

  /** A call to the contract of one asset changes the holdings of that asset only. */
  lemma OtherHoldings(s: State, k: AssetId, contract: Contract, id: AssetId, who: Address)
    requires k in s.contracts
    ensures Holding(s.(contracts := s.contracts[k := contract]), id, who)
         == if id == k then contract.BalanceOf(who) else Holding(s, id, who)
  {
  }

  lemma DepositCalls(cfg: Config, s: State, asset: Asset, to: Location)
    requires Sound(cfg, s) && XcmDeposit(cfg, s, asset, to).1.Ok?
    ensures asset.fun.Fungible? && asset.id in s.byLocation && cfg.toAddress(to).Some?
    ensures var k := s.byLocation[asset.id].0;
            && k in s.contracts
            && MintInto(cfg, s.contracts[k], cfg.toAddress(to).value, asset.fun.amount).Some?
            && XcmDeposit(cfg, s, asset, to).0 == s.(contracts := s.contracts[k :=
                 MintInto(cfg, s.contracts[k], cfg.toAddress(to).value, asset.fun.amount).value])
  {
    assert asset.id in s.byLocation ==> s.byLocation[asset.id].0 in s.contracts;
  }

  lemma WithdrawalCalls(cfg: Config, s: State, asset: Asset, from: Location)
    requires Sound(cfg, s) && XcmWithdraw(cfg, s, asset, from).1.Ok?
    ensures asset.fun.Fungible? && asset.id in s.byLocation && cfg.toAddress(from).Some?
    ensures var k := s.byLocation[asset.id].0;
            && k in s.contracts
            && BurnFrom(cfg, s.contracts[k], cfg.toAddress(from).value, asset.fun.amount).Some?
            && XcmWithdraw(cfg, s, asset, from).0 == s.(contracts := s.contracts[k :=
                 BurnFrom(cfg, s.contracts[k], cfg.toAddress(from).value, asset.fun.amount).value])
  {
    assert asset.id in s.byLocation ==> s.byLocation[asset.id].0 in s.contracts;
  }

  lemma TransferCalls(cfg: Config, s: State, asset: Asset, from: Location, to: Location)
    requires Sound(cfg, s) && XcmInternalTransfer(cfg, s, asset, from, to).1.Ok?
    ensures asset.fun.Fungible? && asset.id in s.byLocation && cfg.toAddress(from).Some? && cfg.toAddress(to).Some?
    ensures var k := s.byLocation[asset.id].0;
            var (source, target) := (cfg.toAddress(from).value, cfg.toAddress(to).value);
            var moved := if k in s.contracts then Transfer(s.contracts[k], source, target, asset.fun.amount) else None;
            && k in s.contracts && moved.Some?
            && XcmInternalTransfer(cfg, s, asset, from, to).0 == s.(contracts := s.contracts[k := moved.value])
  {
    assert asset.id in s.byLocation ==> s.byLocation[asset.id].0 in s.contracts;
  }

  lemma DepositFlows(cfg: Config, s: State, asset: Asset, to: Location, id: AssetId, who: Address)
    requires Sound(cfg, s)
    ensures Holding(XcmDeposit(cfg, s, asset, to).0, id, who)
         == Holding(s, id, who) + Flow(cfg, s, Deposits(asset, to), id, who)
    ensures XcmDeposit(cfg, s, asset, to).1.Err? ==> XcmDeposit(cfg, s, asset, to).0 == s
  {
    if XcmDeposit(cfg, s, asset, to).1.Ok? {
      DepositCalls(cfg, s, asset, to);
      var k := s.byLocation[asset.id].0;
      OtherHoldings(s, k, MintInto(cfg, s.contracts[k], cfg.toAddress(to).value, asset.fun.amount).value, id, who);
    }
  }

  lemma WithdrawalFlows(cfg: Config, s: State, asset: Asset, from: Location, id: AssetId, who: Address)
    requires Sound(cfg, s)
    ensures Holding(XcmWithdraw(cfg, s, asset, from).0, id, who)
         == Holding(s, id, who) + Flow(cfg, s, Withdraws(asset, from), id, who)
    ensures XcmWithdraw(cfg, s, asset, from).1.Err? ==> XcmWithdraw(cfg, s, asset, from).0 == s
  {
    if XcmWithdraw(cfg, s, asset, from).1.Ok? {
      WithdrawalCalls(cfg, s, asset, from);
      var k := s.byLocation[asset.id].0;
      OtherHoldings(s, k, BurnFrom(cfg, s.contracts[k], cfg.toAddress(from).value, asset.fun.amount).value, id, who);
    }
  }

  lemma TransferFlows(cfg: Config, s: State, asset: Asset, from: Location, to: Location, id: AssetId, who: Address)
    requires Sound(cfg, s)
    ensures Holding(XcmInternalTransfer(cfg, s, asset, from, to).0, id, who)
         == Holding(s, id, who) + Flow(cfg, s, Transfers(asset, from, to), id, who)
    ensures XcmInternalTransfer(cfg, s, asset, from, to).1.Err? ==> XcmInternalTransfer(cfg, s, asset, from, to).0 == s
  {
    if XcmInternalTransfer(cfg, s, asset, from, to).1.Ok? {
      TransferCalls(cfg, s, asset, from, to);
      var k := s.byLocation[asset.id].0;
      var moved := Transfer(s.contracts[k], cfg.toAddress(from).value, cfg.toAddress(to).value, asset.fun.amount);
      OtherHoldings(s, k, moved.value, id, who);
    }
  }

  lemma HolderFlows(cfg: Config, s: State, k: AssetId, from: Address, to: Address, amount: nat, id: AssetId,
                    who: Address)
    ensures Holding(HolderTransfer(s, k, from, to, amount), id, who)
         == Holding(s, id, who) + Flow(cfg, s, HolderTransfers(k, from, to, amount), id, who)
  {
  }

  lemma RefusalChangesNothing(cfg: Config, s: State, call: Call)
    requires Managing(call) && Dispatch(cfg, s, call).1.Err?
    ensures Dispatch(cfg, s, call).0 == s
  {
    if call.Create? {
      CreateDispatches(cfg, s, call);
      if DepositAccount(cfg, call.origin).Ok? {
        CreationEffect(cfg, s, call.id, call.location, call.symbol, call.name, DepositAccount(cfg, call.origin).value);
      }
    }
  }

  lemma ManagingFlowsNothing(cfg: Config, s: State, call: Call, id: AssetId, who: Address)
    requires Sound(cfg, s) && Managing(call)
    ensures Holding(Dispatch(cfg, s, call).0, id, who) == Holding(s, id, who)
  {
    if Dispatch(cfg, s, call).1.Err? {
      RefusalChangesNothing(cfg, s, call);
    } else {
      match call
      case Create(origin, k, location, symbol, name) =>
        CreateMeans(cfg, s, origin, k, location, symbol, name);
        assert Holding(s, k, who) == 0;
      case ChangeLocation(origin, k, location) => ChangeMeans(cfg, s, origin, k, location);
      case Freeze(origin, k, allowDeposit) => FreezeMeans(cfg, s, origin, k, allowDeposit);
      case Unfreeze(origin, k) => UnfreezeMeans(cfg, s, origin, k);
    }
  }

  lemma StepFlows(cfg: Config, s: State, call: Call, id: AssetId, who: Address)
    requires Sound(cfg, s)
    ensures Holding(Apply(cfg, s, call), id, who) == Holding(s, id, who) + Flow(cfg, s, call, id, who)
  {
    match call
    case Deposits(asset, to) => DepositFlows(cfg, s, asset, to, id, who);
    case Withdraws(asset, from) => WithdrawalFlows(cfg, s, asset, from, id, who);
    case Transfers(asset, from, to) => TransferFlows(cfg, s, asset, from, to, id, who);
    case HolderTransfers(k, from, to, amount) => HolderFlows(cfg, s, k, from, to, amount, id, who);
    case BalancesChanged(_, _, _) =>
    case _ => ManagingFlowsNothing(cfg, s, call, id, who);
  }

  /** Over every run the holdings of every asset change by what was minted, burnt and transferred, and by
      nothing else: creating, moving, freezing and unfreezing assets move no tokens. */
  lemma {:induction false} RunConservesTokens(cfg: Config, s: State, calls: seq<Call>, id: AssetId, who: Address)
    requires Sound(cfg, s)
    ensures Holding(Run(cfg, s, calls), id, who) == Holding(s, id, who) + TotalFlow(cfg, s, calls, id, who)
    decreases |calls|
  {
    if calls != [] {
      StepFlows(cfg, s, calls[0], id, who);
      StepKeepsSound(cfg, s, calls[0]);
      RunConservesTokens(cfg, Apply(cfg, s, calls[0]), calls[1..], id, who);
    }
  }

  // ---------- When calls succeed ----------

  /** When each call succeeds, in terms a caller can look up beforehand. */
  lemma CallsSucceedExactly(cfg: Config, s: State, origin: Origin, id: AssetId, location: Location, allowDeposit: bool,
                            symbol: seq<Byte>, name: seq<Byte>)
    requires Sound(cfg, s)
    ensures var mine := id in s.byId && Within(origin, s.byId[id]);
            && (CreateForeignAsset(cfg, s, origin, id, location, symbol, name).1.Ok? <==>
                  Creatable(cfg, s, origin, id, location, symbol, name))
            && (ChangeXcmLocation(s, origin, id, location).1.Ok? <==>
                  mine && Within(origin, location) && Convert(s, location) == None)
            && (FreezeForeignAsset(s, origin, id, allowDeposit).1.Ok? <==> mine && StatusOf(s, id) == Some(Active))
            && (UnfreezeForeignAsset(s, origin, id).1.Ok? <==> mine && StatusOf(s, id) != Some(Active))
  {
    CreateSucceedsExactly(cfg, s, origin, id, location, symbol, name);
    ManagementSucceedsExactly(cfg, s, origin, id, location, allowDeposit);
  }

  lemma ManagementSucceedsExactly(cfg: Config, s: State, origin: Origin, id: AssetId, location: Location,
                                  allowDeposit: bool)
    requires Sound(cfg, s)
    ensures var mine := id in s.byId && Within(origin, s.byId[id]);
            && (ChangeXcmLocation(s, origin, id, location).1.Ok? <==>
                  mine && Within(origin, location) && Convert(s, location) == None)
            && (FreezeForeignAsset(s, origin, id, allowDeposit).1.Ok? <==> mine && StatusOf(s, id) == Some(Active))
            && (UnfreezeForeignAsset(s, origin, id).1.Ok? <==> mine && StatusOf(s, id) != Some(Active))
  {
    if id in s.byId {
      assert StatusOf(s, id) == Some(Active) <==> !s.contracts[id].paused;
    }
  }

  // ---------- Why calls fail ----------

  /** What stands in the way of creating an asset, by the error that reports it. */
  ghost predicate CreationObstacle(cfg: Config, s: State, call: Call, e: Error)
    requires call.Create?
  {
    match e
    case LocationOutsideOfOrigin => !Within(call.origin, call.location)
    case BadOrigin => call.origin.FromXcm? && !IsSibling(call.origin.location)
    case CannotConvertLocationToAccount => call.origin.FromXcm? && cfg.siblingAccount(call.origin.location).None?
    case AssetAlreadyExists => ConvertBack(s, call.id).Some?
    case LocationAlreadyExists => Convert(s, call.location).Some?
    case TooManyForeignAssets => cfg.maxForeignAssets <= |s.byId|
    case AssetIdFiltered => !cfg.filter(call.id)
    case InvalidSymbol => Decode(call.symbol).None?
    case InvalidTokenName => Decode(call.name).None?
    case Erc20ContractCreationFail => !cfg.deploys(call.id, call.symbol, call.name)
    case InsufficientBalance =>
      var payer := Payer(cfg, call.origin);
      payer.Some? && Amount(s.free, payer.value) < cfg.creationDeposit
    case _ => false
  }

  /** Likewise for an asset that is there. */
  ghost predicate ManagementObstacle(s: State, call: Call, e: Error)
    requires Managing(call) && !call.Create?
  {
    match e
    case LocationOutsideOfOrigin =>
      || (call.ChangeLocation? && !Within(call.origin, call.location))
      || (call.id in s.byId && !Within(call.origin, s.byId[call.id]))
    case AssetDoesNotExist => ConvertBack(s, call.id) == None
    case LocationAlreadyExists => call.ChangeLocation? && Convert(s, call.location).Some?
    case AssetAlreadyFrozen => call.Freeze? && Frozen(s, call.id)
    case AssetNotFrozen => call.Unfreeze? && StatusOf(s, call.id) == Some(Active)
    case _ => false
  }

  lemma DeployRefusals(cfg: Config, s: State, call: Call, payer: Option<Account>)
    requires call.Create? && call.id !in s.contracts
    ensures var r := Deploy(cfg, s, call.id, call.symbol, call.name, payer).1;
            r.Err? ==> || (r.error == Erc20ContractCreationFail && !cfg.deploys(call.id, call.symbol, call.name))
                       || (r.error == InsufficientBalance && payer.Some?
                           && Amount(s.free, payer.value) < cfg.creationDeposit)
  {
  }

  /** The checks before the contract is deployed, one by one. */
  lemma CheckRefusals(cfg: Config, s: State, call: Call)
    requires call.Create?
    ensures var refused := CreationRefusal(cfg, s, call.id, call.location, call.symbol, call.name);
            && (refused.Some? ==> CreationObstacle(cfg, s, call, refused.value))
            && (refused.None? ==> call.id !in s.byId)
  {
  }

  lemma PayerRefusals(cfg: Config, s: State, call: Call)
    requires call.Create?
    ensures var payer := DepositAccount(cfg, call.origin);
            payer.Err? ==> CreationObstacle(cfg, s, call, payer.error)
  {
  }

  lemma CreationRefusals(cfg: Config, s: State, call: Call)
    requires Sound(cfg, s) && call.Create?
    ensures Dispatch(cfg, s, call).1.Err? ==> CreationObstacle(cfg, s, call, Dispatch(cfg, s, call).1.error)
  {
    CreateDispatches(cfg, s, call);
    PayerRefusals(cfg, s, call);
    CheckRefusals(cfg, s, call);
    if call.id !in s.byId {
      DeployRefusals(cfg, s, call, Payer(cfg, call.origin));
    }
  }

  lemma ChangeRefusals(cfg: Config, s: State, call: Call)
    requires Sound(cfg, s) && call.ChangeLocation?
    ensures Dispatch(cfg, s, call).1.Err? ==> ManagementObstacle(s, call, Dispatch(cfg, s, call).1.error)
  {
    ChangeKeepsSound(cfg, s, call.origin, call.id, call.location);
  }

  lemma FreezeRefusals(cfg: Config, s: State, call: Call)
    requires Sound(cfg, s) && call.Freeze?
    ensures Dispatch(cfg, s, call).1.Err? ==> ManagementObstacle(s, call, Dispatch(cfg, s, call).1.error)
  {
    FreezeKeepsSound(cfg, s, call.origin, call.id, call.allowDeposit);
  }

  lemma UnfreezeRefusals(cfg: Config, s: State, call: Call)
    requires Sound(cfg, s) && call.Unfreeze?
    ensures Dispatch(cfg, s, call).1.Err? ==> ManagementObstacle(s, call, Dispatch(cfg, s, call).1.error)
  {
    UnfreezeKeepsSound(cfg, s, call.origin, call.id);
  }

  /** Every refusal of a managing call names an obstacle that is there, and changes nothing. */
  lemma ManagingRefusals(cfg: Config, s: State, call: Call)
    requires Sound(cfg, s) && Managing(call) && Dispatch(cfg, s, call).1.Err?
    ensures Dispatch(cfg, s, call).0 == s
    ensures call.Create? ==> CreationObstacle(cfg, s, call, Dispatch(cfg, s, call).1.error)
    ensures !call.Create? ==> ManagementObstacle(s, call, Dispatch(cfg, s, call).1.error)
  {
    RefusalChangesNothing(cfg, s, call);
    match call
    case Create(_, _, _, _, _) => CreationRefusals(cfg, s, call);
    case ChangeLocation(_, _, _) => ChangeRefusals(cfg, s, call);
    case Freeze(_, _, _) => FreezeRefusals(cfg, s, call);
    case Unfreeze(_, _) => UnfreezeRefusals(cfg, s, call);
  }

  // ---------- The contract in any state ----------

  /** Pausing is refused exactly when paused, unpausing exactly when not, and each undoes the other. */
  lemma PausingMeans(c: Contract)
    ensures Pause(c).None? <==> c.paused
    ensures Unpause(c).None? <==> !c.paused
    ensures Pause(c).Some? ==> Pause(c).value.paused && Unpause(Pause(c).value) == Some(c)
    ensures Unpause(c).Some? ==> !Unpause(c).value.paused && Pause(Unpause(c).value) == Some(c)
  {
  }

  /** At an address without code every call succeeds without effect, but a transfer is reported as failed. */
  lemma NoCodeNoTransfer(s: State, id: AssetId, from: Address, to: Address, amount: nat,
                         effect: Contract -> Option<Contract>)
    requires id !in s.contracts
    ensures Called(s, id, effect) == Some(s)
    ensures CalledTransfer(s, id, from, to, amount) == Err("Erc20 contract return invalid value")
  {
  }

  // ---------- What the executor gets ----------

  /** The asset is fungible and its location is that of a foreign asset. */
  ghost predicate Handled(s: State, asset: Asset) {
    asset.fun.Fungible? && Convert(s, asset.id).Some?
  }

  ghost predicate HasStatus(s: State, asset: Asset, status: Status) {
    Handled(s, asset) && StatusOf(s, Convert(s, asset.id).value) == Some(status)
  }

  ghost predicate Holds(cfg: Config, s: State, asset: Asset, from: Location) {
    && Handled(s, asset) && cfg.toAddress(from).Some?
    && asset.fun.amount <= Holding(s, Convert(s, asset.id).value, cfg.toAddress(from).value)
  }

  /** Every answer to a deposit: the status comes before the account. */
  lemma DepositAnswers(cfg: Config, s: State, asset: Asset, to: Location)
    requires Sound(cfg, s)
    ensures var (t, r) := XcmDeposit(cfg, s, asset, to);
            var refused := !Handled(s, asset) || HasStatus(s, asset, FrozenXcmDepositForbidden);
            && (r.Err? ==> t == s)
            && (r == Err(AssetNotHandled) <==> refused)
            && (r == Err(AccountIdConversionFailed) <==> !refused && cfg.toAddress(to).None?)
            && (r.Ok? <==> !refused && cfg.toAddress(to).Some? && (HasStatus(s, asset, Active) || cfg.mintsWhilePaused))
  {
    if Convert(s, asset.id).Some? {
      assert StatusOf(s, s.byLocation[asset.id].0) == Some(s.byLocation[asset.id].1);
    }
  }

  /** Every answer to a withdrawal: the account comes before the status. */
  lemma WithdrawalAnswers(cfg: Config, s: State, asset: Asset, from: Location)
    requires Sound(cfg, s)
    ensures var (t, r) := XcmWithdraw(cfg, s, asset, from);
            var known := cfg.toAddress(from).Some?;
            && (r.Err? ==> t == s)
            && (r == Err(AssetNotHandled) <==> !Handled(s, asset) || (known && !HasStatus(s, asset, Active)))
            && (r == Err(AccountIdConversionFailed) <==> Handled(s, asset) && !known)
            && (r.Ok? <==> HasStatus(s, asset, Active) && Holds(cfg, s, asset, from))
  {
    if Convert(s, asset.id).Some? {
      assert StatusOf(s, s.byLocation[asset.id].0) == Some(s.byLocation[asset.id].1);
    }
  }

  /** Every answer to a transfer: the status comes before the accounts. */
  lemma TransferAnswers(cfg: Config, s: State, asset: Asset, from: Location, to: Location)
    requires Sound(cfg, s)
    ensures var (t, r) := XcmInternalTransfer(cfg, s, asset, from, to);
            var known := cfg.toAddress(from).Some? && cfg.toAddress(to).Some?;
            && (r.Err? ==> t == s)
            && (r == Err(AssetNotHandled) <==> !HasStatus(s, asset, Active))
            && (r == Err(AccountIdConversionFailed) <==> HasStatus(s, asset, Active) && !known)
            && (r.Ok? <==> HasStatus(s, asset, Active) && known && Holds(cfg, s, asset, from))
  {
    if Convert(s, asset.id).Some? {
      assert StatusOf(s, s.byLocation[asset.id].0) == Some(s.byLocation[asset.id].1);
    }
  }
}
