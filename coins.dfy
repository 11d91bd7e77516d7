/**
 The slice of the Cosmos SDK coin types that the bonds batch reads:
 a single-denomination coin with a non-negative integer amount, a list
 of coins, and a decimal coin whose amount is kept as the SDK's
 fixed-point integer.
 */
module Coins {

  /** An `sdk.Coin`: a denomination and a non-negative amount. */
  datatype Coin = Coin(denom: string, amount: nat) {

    /** The SDK comparison `IsLT`. It panics when the two denominations
        differ, so callers must compare coins of one denomination. */
    predicate IsLT(other: Coin)
      requires denom == other.denom
    {
      amount < other.amount
    }

    /** The SDK comparison `IsEqual`, which panics on differing
        denominations just as `IsLT` does. */
    predicate IsEqual(other: Coin)
      requires denom == other.denom
    {
      amount == other.amount
    }
  }

  /** An `sdk.DecCoin`; `scaled` is the decimal amount times 10^18. The
      batch code only stores these, it never computes with them. */
  datatype DecCoin = DecCoin(denom: string, scaled: int)

  /** `sdk.DecCoins`, a list of decimal coins. */
  type DecCoins = seq<DecCoin>

  /** `sdk.Coins`, a list of coins. */
  type CoinList = seq<Coin>

  /** `sdk.NewInt64Coin(denom, 0)`: the zero coin of a denomination. */
  function Zero(denom: string): (c: Coin)
    ensures c.denom == denom
    ensures forall other: Coin :: other.denom == denom ==> !other.IsLT(c)
  {
    Coin(denom, 0)
  }
}
