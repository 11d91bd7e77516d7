/**
 The bonds module's batch and order records: the open batch of a bond,
 the three predicates that compare its buy and sell totals, and the
 constructors of the base, buy, sell and swap orders.
 */
module Batches {
  import opened Coins

  /** An `ixo.Did`. */
  type Did = string

  /** The package's string flags for the `Cancelled` field. Their texts are
      defined outside the modelled files; the model needs only that they
      differ. */
  const TRUE: string := "true"
  const FALSE: string := "false"

  /** The fields every order carries. `cancelled` is a string flag that
      holds `TRUE` or `FALSE`. */
  datatype BaseOrder = BaseOrder(accountDid: Did, amount: Coin, cancelled: string, cancelReason: string) {

    /** An order is cancelled exactly when its flag is the `TRUE` string;
        in particular an order flagged `FALSE` is not cancelled. */
    predicate IsCancelled()
      ensures cancelled == FALSE ==> !IsCancelled()
    {
      cancelled == TRUE
    }
  }

  /** A buy order: a base order and the most the buyer will pay, per
      reserve denomination. */
  datatype BuyOrder = BuyOrder(base: BaseOrder, maxPrices: CoinList)

  /** A sell order adds nothing to the base order. */
  datatype SellOrder = SellOrder(base: BaseOrder)

  /** A swap order: a base order (the coin given) and the reserve
      denomination wanted in exchange. */
  datatype SwapOrder = SwapOrder(base: BaseOrder, toToken: string)

  /** The batch of orders a bond accumulates before it is settled. */
  datatype Batch = Batch(
    bondDid: Did,
    blocksRemaining: nat,
    totalBuyAmount: Coin,
    totalSellAmount: Coin,
    buyPrices: DecCoins,
    sellPrices: DecCoins,
    buys: seq<BuyOrder>,
    sells: seq<SellOrder>,
    swaps: seq<SwapOrder>)
  {
    /** The two totals are in one denomination, which the coin comparisons
        below demand (they panic otherwise). */
    predicate SameDenomTotals() {
      totalBuyAmount.denom == totalSellAmount.denom
    }

    predicate MoreBuysThanSells()
      requires SameDenomTotals()
      ensures MoreBuysThanSells() <==> totalSellAmount.amount < totalBuyAmount.amount
    {
      totalSellAmount.IsLT(totalBuyAmount)
    }

    predicate MoreSellsThanBuys()
      requires SameDenomTotals()
      ensures MoreSellsThanBuys() <==> totalBuyAmount.amount < totalSellAmount.amount
    {
      totalBuyAmount.IsLT(totalSellAmount)
    }

    predicate EqualBuysAndSells()
      requires SameDenomTotals()
      ensures EqualBuysAndSells() <==> totalBuyAmount == totalSellAmount
    {
      totalBuyAmount.IsEqual(totalSellAmount)
    }

    /** True when no buy, sell or swap order has been added. */
    predicate NoOrders() {
      buys == [] && sells == [] && swaps == []
    }
  }

  /** The number of the three comparison predicates that hold. */
  function BranchCount(b: Batch): nat
    requires b.SameDenomTotals()
  {
    (if b.MoreBuysThanSells() then 1 else 0)
    + (if b.MoreSellsThanBuys() then 1 else 0)
    + (if b.EqualBuysAndSells() then 1 else 0)
  }

  /** When the totals share a denomination, exactly one of the three
      predicates holds, so they select exactly one settlement branch. */
  lemma ExactlyOneBranch(b: Batch)
    requires b.SameDenomTotals()
    ensures BranchCount(b) == 1
    ensures !(b.MoreBuysThanSells() && b.MoreSellsThanBuys())
  {
  }

  /** A new, empty batch for a bond whose token is `token`, with `blocks`
      blocks left before it is settled. */
  function NewBatch(bondDid: Did, token: string, blocks: nat): (b: Batch)
    ensures b.bondDid == bondDid && b.blocksRemaining == blocks
    ensures b.totalBuyAmount == b.totalSellAmount == Coin(token, 0)
    ensures b.buyPrices == [] && b.sellPrices == []
    ensures b.NoOrders()
    ensures b.SameDenomTotals() && b.EqualBuysAndSells()
    ensures !b.MoreBuysThanSells() && !b.MoreSellsThanBuys()
  {
    Batch(bondDid, blocks, Zero(token), Zero(token), [], [], [], [], [])
  }

  /** A new order that is not cancelled and has no cancel reason. */
  function NewBaseOrder(accountDid: Did, amount: Coin): (o: BaseOrder)
    ensures o.accountDid == accountDid && o.amount == amount
    ensures o.cancelled == FALSE && o.cancelReason == ""
    ensures !o.IsCancelled()
  {
    BaseOrder(accountDid, amount, FALSE, "")
  }

  function NewBuyOrder(buyerDid: Did, amount: Coin, maxPrices: CoinList): (o: BuyOrder)
    ensures o.base == NewBaseOrder(buyerDid, amount)
    ensures o.base.accountDid == buyerDid && o.base.amount == amount
    ensures !o.base.IsCancelled() && o.base.cancelReason == ""
    ensures o.maxPrices == maxPrices
  {
    BuyOrder(NewBaseOrder(buyerDid, amount), maxPrices)
  }

  function NewSellOrder(sellerDid: Did, amount: Coin): (o: SellOrder)
    ensures o.base == NewBaseOrder(sellerDid, amount)
    ensures o.base.accountDid == sellerDid && o.base.amount == amount
    ensures !o.base.IsCancelled() && o.base.cancelReason == ""
  {
    SellOrder(NewBaseOrder(sellerDid, amount))
  }

  function NewSwapOrder(swapperDid: Did, from: Coin, toToken: string): (o: SwapOrder)
    ensures o.base == NewBaseOrder(swapperDid, from)
    ensures o.base.accountDid == swapperDid && o.base.amount == from
    ensures !o.base.IsCancelled() && o.base.cancelReason == ""
    ensures o.toToken == toToken
  {
    SwapOrder(NewBaseOrder(swapperDid, from), toToken)
  }
}
