/** The parts of the XCM vocabulary the two asset pallets look at. */
module Xcm {

  datatype Option<+T> = None | Some(value: T) {
    function GetOr(default: T): T {
      if Some? then value else default
    }

    function Or(other: Option<T>): Option<T> {
      if Some? then this else other
    }
  }

  datatype Result<+T, +E> = Ok(value: T) | Err(error: E)

  datatype Junction =
    | Parachain(id: nat)
    | PalletInstance(index: nat)
    | AccountKey20(key: nat)
    | GeneralIndex(general: nat)
    | GeneralKey(data: seq<nat>)

  datatype Location = Location(parents: nat, interior: seq<Junction>) {
    /** `Location::starts_with`: same number of parents and an interior prefix. */
    predicate StartsWith(prefix: Location) {
      parents == prefix.parents && prefix.interior <= interior
    }
  }

  datatype Fungibility = Fungible(amount: nat) | NonFungible(instance: nat)

  datatype Asset = Asset(id: Location, fun: Fungibility)

  datatype XcmError =
    | AssetNotHandled
    | AssetIdConversionFailed
    | AccountIdConversionFailed
    | AssetNotFound
    | FailedToTransactAsset(reason: string)
}
