/** The part of the static contract table (`contracts.mainnet`) the Curve estimator
    reads, as a partial map from key to entry: the two protocol tokens and the two
    Curve pools. The other venues get their contract from their configuration.
    ABI contents are not modelled. */
module Registry {
  import opened SwapTypes

  /** `NullAddress`, which stands for the native coin in Curve's coin lists. */
  const NullAddress := "0x0000000000000000000000000000000000000000"

  const Mainnet: map<string, Contract> := map[
    "OUSD" := Contract("Origin Dollar", "0x2A8e1E676Ec238d8A992307B495b45B3fEAa5e86", [], "OUSD"),
    "OETH" := Contract("Origin Ether", "0x856c4Efb76C1D1AE02e20CEB03A2A6a08b0b8dC3", [], "OETH"),
    "CurveOUSDMetaPool" := Contract("Curve.fi Factory USD Metapool", "0x87650D7bbfC3A9F10587d7778206671719d9910D", [], ""),
    "CurveOETHMetaPool" := Contract("Curve.fi Factory Pool", "0x94b17476a93b3262d87b9a326965d1e91f9c13e7", [], "")
  ]

  /** `registry[key]?.address`, "" (undefined) when the key is missing. */
  function AddressOf(registry: map<string, Contract>, key: string): (a: string)
    ensures key !in registry ==> a == ""
    ensures key in registry ==> a == registry[key].address
  {
    if key in registry then registry[key].address else ""
  }
}
