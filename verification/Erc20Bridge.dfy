/** The ERC-20 bridge pallet (`erc20-xcm-bridge/src/lib.rs`), over an ideal token ledger that
    follows the `transfer` method of EIP-20, section "Methods": the transfer throws when the
    sender's balance is too low, and a transfer of zero is a normal transfer. */
module Erc20Bridge {
  import opened Xcm
  import opened XcmHolding

  type Ledger = map<(Address, Address), nat>

  function Balance(ledger: Ledger, contract: Address, account: Address): nat {
    if (contract, account) in ledger then ledger[(contract, account)] else 0
  }

  function Erc20Transfer(ledger: Ledger, contract: Address, from: Address, to: Address, amount: nat): Option<Ledger> {
    if Balance(ledger, contract, from) < amount then None
    else
      var debited := ledger[(contract, from) := Balance(ledger, contract, from) - amount];
      Some(debited[(contract, to) := Balance(debited, contract, to) + amount])
  }

  function TransferAll(ledger: Ledger, contract: Address, tokens: seq<Entry>, to: Address): Option<Ledger>
    decreases |tokens|
  {
    if tokens == [] then Some(ledger)
    else
      match Erc20Transfer(ledger, contract, tokens[0].holder, to, tokens[0].amount)
      case None => None
      case Some(next) => TransferAll(next, contract, tokens[1..], to)
  }

  /** Ledger and holding after a deposit of `amount` to `to`. The drain is not part of the storage
      transaction, so a failed transfer restores the ledger but not the queue. */
  function Deposit(ledger: Ledger, origins: Origins, contract: Address, to: Address, amount: nat)
    : (Ledger, Origins, Result<(), XcmError>)
  {
    var (drained, r) := DrainFrom(origins, contract, amount);
    match r
    case Drained(tokens) =>
      (match TransferAll(ledger, contract, tokens, to)
       case Some(paid) => (paid, drained, Ok(()))
       case None => (ledger, drained, Err(FailedToTransactAsset("Erc20 contract transfer fail"))))
    case DrainFailed(e) => (ledger, origins, Err(DrainErrorToXcm(e)))
  }

  function DrainErrorToXcm(e: DrainError): XcmError {
    match e
    case AssetNotFound => XcmError.AssetNotFound
    case NotEnoughFounds => FailedToTransactAsset("not enough founds in xcm holding")
    case SplitError =>
      FailedToTransactAsset("SplitError: each withdrawal of erc20 tokens must be deposited at once")
  }

  // ---------- The asset matcher (`erc20_matcher.rs`) ----------

  function MatchesErc20Location(prefix: Location, location: Location): Option<Address> {
    if !location.StartsWith(prefix) then None
    else if |location.interior| <= |prefix.interior| then None
    else
      match location.interior[|prefix.interior|]
      case AccountKey20(key) => Some(key)
      case _ => None
  }

  function MatchesFungibles(prefix: Location, asset: Asset): Result<(Address, nat), XcmError> {
    match asset.fun
    case NonFungible(_) => Err(AssetNotHandled)
    case Fungible(amount) =>
      match MatchesErc20Location(prefix, asset.id)
      case None => Err(AssetIdConversionFailed)
      case Some(contract) => Ok((contract, amount))
  }

  /** The location of a contract: the prefix, then the key of the contract, then anything. */
  ghost predicate Names(prefix: Location, location: Location, contract: Address) {
    location.parents == prefix.parents &&
    exists rest :: location.interior == prefix.interior + [AccountKey20(contract)] + rest
  }

  lemma MatchesExactly(prefix: Location, location: Location, contract: Address)
    ensures MatchesErc20Location(prefix, location) == Some(contract) <==> Names(prefix, location, contract)
  {
    var n := |prefix.interior|;
    if MatchesErc20Location(prefix, location) == Some(contract) {
      assert location.interior == prefix.interior + [AccountKey20(contract)] + location.interior[n + 1..];
    }
  }

  /** A fungible asset at the location of a contract matches as that contract and its own whole amount. */
  lemma FungiblesMatchExactly(prefix: Location, asset: Asset, contract: Address, amount: nat)
    ensures MatchesFungibles(prefix, asset) == Ok((contract, amount))
       <==> asset.fun == Fungible(amount) && Names(prefix, asset.id, contract)
    ensures MatchesFungibles(prefix, asset) == Err(AssetNotHandled) <==> asset.fun.NonFungible?
    ensures MatchesFungibles(prefix, asset) == Err(AssetIdConversionFailed)
       <==> asset.fun.Fungible? && forall c: Address :: !Names(prefix, asset.id, c)
  {
    forall c: Address ensures Names(prefix, asset.id, c) <==> MatchesErc20Location(prefix, asset.id) == Some(c) {
      MatchesExactly(prefix, asset.id, c);
    }
    if MatchesErc20Location(prefix, asset.id).Some? {
      assert Names(prefix, asset.id, MatchesErc20Location(prefix, asset.id).value);
    }
  }

  lemma WhatMatches(prefix: Location, asset: Asset)
    ensures forall c: Address :: asset.fun.Fungible? && Names(prefix, asset.id, c) ==>
              MatchesFungibles(prefix, asset) == Ok((c, asset.fun.amount))
    ensures asset.fun.NonFungible? ==> MatchesFungibles(prefix, asset) == Err(AssetNotHandled)
    ensures asset.fun.Fungible? && (forall c: Address :: !Names(prefix, asset.id, c)) ==>
              MatchesFungibles(prefix, asset) == Err(AssetIdConversionFailed)
  {
    forall c: Address | asset.fun.Fungible? && Names(prefix, asset.id, c)
      ensures MatchesFungibles(prefix, asset) == Ok((c, asset.fun.amount))
    {
      FungiblesMatchExactly(prefix, asset, c, asset.fun.amount);
    }
    FungiblesMatchExactly(prefix, asset, 0, 0);
  }

  // ---------- Deposits and transfers in terms of queues and balances ----------

  /** Every outcome of a deposit, by prefix sums of the queue and by the payment of the shortest matching prefix. */
  lemma DepositMeans(ledger: Ledger, origins: Origins, contract: Address, to: Address, amount: nat)
    ensures var (paid, left, r) := Deposit(ledger, origins, contract, to, amount);
            var queue := Queue(origins, contract);
            && (forall k :: k != contract ==> Queue(left, k) == Queue(origins, k))
            && (r.Err? ==> paid == ledger)
            && (contract !in origins ==> r == Err(XcmError.AssetNotFound))
            && (!HasMatch(queue, amount) ==> left == origins && r.Err?)
            && (contract in origins && !HasMatch(queue, amount) ==>
                  r == Err(FailedToTransactAsset(if HasOvershoot(queue, amount)
                         then "SplitError: each withdrawal of erc20 tokens must be deposited at once"
                         else "not enough founds in xcm holding")))
            && (HasMatch(queue, amount) ==>
                  PaidFrom(ledger, queue, contract, to, amount, paid, Queue(left, contract), r))
  {
    if contract in origins {
      var queue := origins[contract];
      DrainSucceedsExactly(queue, amount);
      DrainCharacterised(queue, amount);
    }
  }

  /** The shortest prefix of the queue that sums to the amount leaves it, and is paid entry by entry or not at all. */
  ghost predicate PaidFrom(ledger: Ledger, queue: seq<Entry>, contract: Address, to: Address, amount: nat,
                           paid: Ledger, left: seq<Entry>, r: Result<(), XcmError>)
  {
    exists n: nat ::
      && Matches(queue, amount, n) && (forall m :: 0 < m < n ==> Total(queue[..m]) < amount) && left == queue[n..]
      && match TransferAll(ledger, contract, queue[..n], to)
         case Some(after) => r == Ok(()) && paid == after
         case None => r == Err(FailedToTransactAsset("Erc20 contract transfer fail")) && paid == ledger
  }

  /** One ideal transfer, by balances. */
  lemma TransferMeans(ledger: Ledger, contract: Address, from: Address, to: Address, amount: nat)
    ensures var moved := Erc20Transfer(ledger, contract, from, to, amount);
            && (moved.Some? <==> amount <= Balance(ledger, contract, from))
            && (moved.Some? ==> Moved(ledger, moved.value, contract, from, to, amount))
  {
  }

  ghost predicate Moved(ledger: Ledger, after: Ledger, contract: Address, from: Address, to: Address, amount: nat) {
    forall k, a :: Balance(after, k, a) == Balance(ledger, k, a)
                                           - (if k == contract && a == from then amount else 0)
                                           + (if k == contract && a == to then amount else 0)
  }

  // ---------- The pallet ----------

  class Bridge {
    const prefix: Location
    const convert: Location -> Option<Address>
    var ledger: Ledger
    // The executor context; null outside the execution of a message.
    var context: XcmHoldingErc20sOrigins?

    constructor (prefix: Location, convert: Location -> Option<Address>, ledger: Ledger)
      ensures this.prefix == prefix && this.convert == convert
      ensures this.ledger == ledger && context == null
    {
      this.prefix, this.convert, this.ledger, this.context := prefix, convert, ledger, null;
    }

    /** One EVM call. The ideal contract returns true exactly when the sender can pay. */
    method CallTransfer(contract: Address, from: Address, to: Address, amount: nat) returns (ok: bool)
      modifies this`ledger
      ensures ok <==> amount <= Balance(old(ledger), contract, from)
      ensures Erc20Transfer(old(ledger), contract, from, to, amount) == if ok then Some(ledger) else None
      ensures !ok ==> ledger == old(ledger)
    {
      var held := Balance(ledger, contract, from);
      if held < amount {
        return false;
      }
      ledger := ledger[(contract, from) := held - amount];
      ledger := ledger[(contract, to) := Balance(ledger, contract, to) + amount];
      return true;
    }

    method DepositAsset(what: Asset, who: Location) returns (r: Result<(), XcmError>)
      modifies this`ledger, context
      ensures context == old(context)
      ensures MatchesFungibles(prefix, what).Err? ==>
        r == Err(MatchesFungibles(prefix, what).error)
      ensures MatchesFungibles(prefix, what).Ok? && convert(who).None? ==>
        r == Err(AccountIdConversionFailed)
      ensures MatchesFungibles(prefix, what).Ok? && convert(who).Some? && context == null ==>
        r == Err(FailedToTransactAsset("missing erc20 executor context"))
      ensures MatchesFungibles(prefix, what).Ok? && convert(who).Some? && context != null ==>
        var (contract, amount) := MatchesFungibles(prefix, what).value;
        (ledger, context.queues, r) == Deposit(old(ledger), old(context.queues), contract, convert(who).value, amount)
      ensures MatchesFungibles(prefix, what).Err? || convert(who).None? ==>
        context != null ==> context.queues == old(context.queues)
      ensures r.Err? ==> ledger == old(ledger)
      ensures what.fun.NonFungible? ==> r == Err(AssetNotHandled)
      ensures what.fun.Fungible? && (forall c: Address :: !Names(prefix, what.id, c)) ==>
        r == Err(AssetIdConversionFailed)
      ensures forall c: Address ::
        what.fun.Fungible? && Names(prefix, what.id, c) && convert(who).Some? && context != null ==>
        && (forall k :: k != c ==> Queue(context.queues, k) == Queue(old(context.queues), k))
        && (HasMatch(Queue(old(context.queues), c), what.fun.amount) ==>
              PaidFrom(old(ledger), Queue(old(context.queues), c), c, convert(who).value, what.fun.amount,
                       ledger, Queue(context.queues, c), r))
        && (!HasMatch(Queue(old(context.queues), c), what.fun.amount) ==>
              r.Err? && context.queues == old(context.queues))
    {
      WhatMatches(prefix, what);
      var matched := MatchesFungibles(prefix, what);
      if matched.Err? {
        return Err(matched.error);
      }
      var (contract, amount) := matched.value;
      var beneficiary := convert(who);
      if beneficiary.None? {
        return Err(AccountIdConversionFailed);
      }
      if context == null {
        return Err(FailedToTransactAsset("missing erc20 executor context"));
      }
      DepositMeans(ledger, context.queues, contract, beneficiary.value, amount);
      var drained := context.Drain(contract, amount);
      if drained.DrainFailed? {
        return Err(DrainErrorToXcm(drained.error));
      }
      // The storage layer around the loop: every earlier transfer is undone when one fails.
      var snapshot := ledger;
      var tokens := drained.tokens;
      for i := 0 to |tokens|
        invariant context == old(context) && context.queues == DrainFrom(old(context.queues), contract, amount).0
        invariant TransferAll(snapshot, contract, tokens, beneficiary.value)
               == TransferAll(ledger, contract, tokens[i..], beneficiary.value)
      {
        assert tokens[i..][0] == tokens[i] && tokens[i..][1..] == tokens[i + 1..];
        var ok := CallTransfer(contract, tokens[i].holder, beneficiary.value, tokens[i].amount);
        if !ok {
          ledger := snapshot;
          return Err(FailedToTransactAsset("Erc20 contract transfer fail"));
        }
      }
      return Ok(());
    }

    method InternalTransferAsset(asset: Asset, from: Location, to: Location) returns (r: Result<Asset, XcmError>)
      modifies this`ledger
      ensures r.Err? ==> ledger == old(ledger)
      ensures MatchesFungibles(prefix, asset).Err? ==> r == Err(MatchesFungibles(prefix, asset).error)
      ensures MatchesFungibles(prefix, asset).Ok? && (convert(from).None? || convert(to).None?) ==>
        r == Err(AccountIdConversionFailed)
      ensures MatchesFungibles(prefix, asset).Ok? && convert(from).Some? && convert(to).Some? ==>
        var (contract, amount) := MatchesFungibles(prefix, asset).value;
        match Erc20Transfer(old(ledger), contract, convert(from).value, convert(to).value, amount)
        case Some(paid) => r == Ok(asset) && ledger == paid
        case None => r == Err(FailedToTransactAsset("Erc20 contract transfer fail"))
      ensures asset.fun.NonFungible? ==> r == Err(AssetNotHandled)
      ensures asset.fun.Fungible? && (forall c: Address :: !Names(prefix, asset.id, c)) ==>
        r == Err(AssetIdConversionFailed)
      ensures forall c: Address ::
        asset.fun.Fungible? && Names(prefix, asset.id, c) && convert(from).Some? && convert(to).Some? ==>
        && (r == Ok(asset) <==> asset.fun.amount <= Balance(old(ledger), c, convert(from).value))
        && (r.Ok? ==> Moved(old(ledger), ledger, c, convert(from).value, convert(to).value, asset.fun.amount))
    {
      WhatMatches(prefix, asset);
      var matched := MatchesFungibles(prefix, asset);
      if matched.Err? {
        return Err(matched.error);
      }
      var (contract, amount) := matched.value;
      var source, destination := convert(from), convert(to);
      if source.None? || destination.None? {
        return Err(AccountIdConversionFailed);
      }
      TransferMeans(ledger, contract, source.value, destination.value, amount);
      var ok := CallTransfer(contract, source.value, destination.value, amount);
      if !ok {
        return Err(FailedToTransactAsset("Erc20 contract transfer fail"));
      }
      return Ok(asset);
    }

    /** Only records the withdrawal: the ledger is not in the frame. */
    method WithdrawAsset(what: Asset, who: Location) returns (r: Result<Asset, XcmError>)
      modifies context
      ensures MatchesFungibles(prefix, what).Err? ==> r == Err(MatchesFungibles(prefix, what).error)
      ensures MatchesFungibles(prefix, what).Ok? && convert(who).None? ==> r == Err(AccountIdConversionFailed)
      ensures MatchesFungibles(prefix, what).Ok? && convert(who).Some? && context == null ==>
        r == Err(FailedToTransactAsset("missing erc20 executor context"))
      ensures MatchesFungibles(prefix, what).Ok? && convert(who).Some? && context != null ==> r.Ok?
      ensures r.Ok? ==>
        && r.value == what && MatchesFungibles(prefix, what).Ok? && convert(who).Some? && context != null
        && var (contract, amount) := MatchesFungibles(prefix, what).value;
           context.queues == InsertInto(old(context.queues), contract, convert(who).value, amount)
      ensures r.Err? && context != null ==> context.queues == old(context.queues)
      ensures what.fun.NonFungible? ==> r == Err(AssetNotHandled)
      ensures what.fun.Fungible? && (forall c: Address :: !Names(prefix, what.id, c)) ==>
        r == Err(AssetIdConversionFailed)
      ensures forall c: Address ::
        what.fun.Fungible? && Names(prefix, what.id, c) && convert(who).Some? && context != null ==>
        && r == Ok(what)
        && (forall k :: Queue(context.queues, k)
              == Queue(old(context.queues), k) + if k == c then [Entry(convert(who).value, what.fun.amount)] else [])
    {
      WhatMatches(prefix, what);
      var matched := MatchesFungibles(prefix, what);
      if matched.Err? {
        return Err(matched.error);
      }
      var (contract, amount) := matched.value;
      var holder := convert(who);
      if holder.None? {
        return Err(AccountIdConversionFailed);
      }
      if context == null {
        return Err(FailedToTransactAsset("missing erc20 executor context"));
      }
      context.Insert(contract, holder.value, amount);
      return Ok(what);
    }
  }
}
