/** Types every component shares. */
module Common {

  datatype Option<+T> = None | Some(value: T)

  datatype Direction = Long | Short

  /** Equities trade in shares; every other class is sized in whole contracts. */
  datatype AssetClass = Shares | Contracts
}
