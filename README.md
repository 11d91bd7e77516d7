# Bond batches, orders and bond-doc messages

This project models two small pure pieces of the ixo bonds code.

- **The bonds batch** (`x/bonds/internal/types/batch.go`). A bond collects
  buy, sell and swap orders in a `Batch` over a number of blocks before it
  settles them. The batch holds the bond DID, the blocks remaining, the
  running buy and sell totals (coins in the bond's token), two price
  vectors and the three order lists. Three predicates compare the totals
  and choose the settlement branch: more buys than sells, more sells than
  buys, or equal. `NewBatch` opens an empty batch. `NewBaseOrder`,
  `NewBuyOrder`, `NewSellOrder` and `NewSwapOrder` build orders that are
  not cancelled. `IsCancelled` reads the order's string flag.
- **The bond-doc helpers** (`x/bonddoc/internal/types/util.go`).
  `NewCreateBondMsg` and `NewUpdateBondStatusMsg` build messages from a
  document and a Sovrin DID. `CheckNotEmpty` rejects an empty field value
  with an unknown-request error whose text is the field name followed by
  `" is empty."`.

Modules:

- `Coins` (`coins.dfy`): `sdk.Coin` as a denomination and a `nat` amount.
  `IsLT` and `IsEqual` require equal denominations, because the SDK panics
  otherwise. `sdk.DecCoins` and `sdk.Coins` are plain sequences that the
  code only stores.
- `Batches` (`batch.dfy`): the batch and order records, the three
  predicates and the constructors. Go's embedded `BaseOrder` is a `base`
  field of each order kind. `sdk.Uint` is `nat`. The nil slices that
  `NewBatch` leaves are empty sequences.
- `BondDocUtil` (`bonddoc_util.dfy`): the two message constructors and
  `CheckNotEmpty`. `EmptyFieldName` is the inverse of the error text and
  reads the field name back out of it. The validator's `(valid, err)`
  pair is a `Validity` record, with `None` for a nil error.
- `Wrappers` (`wrappers.dfy`): the `Option` datatype.

The flags `TRUE` and `FALSE` are declared elsewhere in the bonds types
package, and that file is not part of this model. Here they are the
strings `"true"` and `"false"`. The proofs use only the fact that the two
strings differ.

## Model

| member | source | states |
|---|---|---|
| `Batches.Batch.MoreBuysThanSells` | x/bonds/internal/types/batch.go:20 | holds exactly when the sell total's amount is strictly below the buy total's; requires the totals to share a denomination |
| `Batches.Batch.MoreSellsThanBuys` | x/bonds/internal/types/batch.go:21 | holds exactly when the buy total's amount is strictly below the sell total's; requires the totals to share a denomination |
| `Batches.Batch.EqualBuysAndSells` | x/bonds/internal/types/batch.go:22 | holds exactly when the two totals are the same coin |
| `Batches.ExactlyOneBranch` | x/bonds/internal/types/batch.go:20-22 | when the totals share a denomination, exactly one of the three predicates holds; the two "more" predicates never hold together |
| `Coins.Zero` | x/bonds/internal/types/batch.go:28-29 | the zero coin of a token has that token as its denomination, and no coin of that token is below it |
| `Batches.NewBatch` | x/bonds/internal/types/batch.go:24-31 | keeps the bond DID and block count; both totals are 0 of `token`; price vectors and all order lists are empty; the batch is balanced (`EqualBuysAndSells`) and neither "more" predicate holds |
| `Batches.NewBaseOrder` | x/bonds/internal/types/batch.go:40-47 | keeps the account DID and amount, sets the flag to `FALSE` and the reason to `""`, so the order is not cancelled |
| `Batches.BaseOrder.IsCancelled` | x/bonds/internal/types/batch.go:49-51 | an order is cancelled exactly when its flag is the `TRUE` string, so an order flagged `FALSE` is not cancelled |
| `Batches.NewBuyOrder` | x/bonds/internal/types/batch.go:58-63 | wraps the uncancelled base order of the buyer and amount, and keeps `MaxPrices` unchanged |
| `Batches.NewSellOrder` | x/bonds/internal/types/batch.go:69-73 | wraps the uncancelled base order of the seller and amount |
| `Batches.NewSwapOrder` | x/bonds/internal/types/batch.go:80-85 | wraps the uncancelled base order of the swapper and source coin, and keeps `ToToken` unchanged |
| `BondDocUtil.NewCreateBondMsg` | x/bonddoc/internal/types/util.go:9-18 | the message is unsigned (empty sign bytes, tx hash and sender); its bond DID and public key come from the Sovrin DID, its data is the bond document |
| `BondDocUtil.NewUpdateBondStatusMsg` | x/bonddoc/internal/types/util.go:20-28 | empty sign bytes; tx hash and sender are the arguments; bond DID from the project's Sovrin DID; data is the status document |
| `BondDocUtil.EmptyMessage` | x/bonddoc/internal/types/util.go:32 | the error text starts with the field name and ends with `" is empty."`, and is exactly as long as the two together |
| `BondDocUtil.EmptyFieldNameOfMessage` | x/bonddoc/internal/types/util.go:32 | the field name can be read back from its error text |
| `BondDocUtil.EmptyMessageOfFieldName` | x/bonddoc/internal/types/util.go:32 | every text from which a name is read back is that name's error text, so the two functions are inverse |
| `BondDocUtil.EmptyMessageRange` | x/bonddoc/internal/types/util.go:32 | a text is some field's error text exactly when a field name can be read back from it |
| `BondDocUtil.CheckNotEmpty` | x/bonddoc/internal/types/util.go:30-36 | valid exactly when no error is returned, and exactly when the value is non-empty; an empty value gives an unknown-request error whose text is `name + " is empty."` and names the field |

## Left out

- Batches.Batch.MoreBuysThanSells: requires the two totals to share a denomination, because the SDK's `IsLT` panics when they differ. The panic itself is not modelled. Coin amounts are unbounded `nat`s rather than `sdk.Int`'s 256-bit integers; these files do no arithmetic, so the bound never matters.
- Batches.Batch.MoreSellsThanBuys: requires the two totals to share a denomination, because the SDK's `IsLT` panics when they differ. The panic itself is not modelled. Amounts are `nat` rather than 256-bit `sdk.Int`, which is harmless without arithmetic.
- Batches.Batch.EqualBuysAndSells: requires the two totals to share a denomination, because the SDK's `IsEqual` panics when they differ. The panic itself is not modelled. Amounts are `nat` rather than 256-bit `sdk.Int`, which is harmless without arithmetic.
- `Batches.NewBatch`: does not model the panic that `sdk.NewInt64Coin` raises for a malformed denomination. The SDK's denomination rule is not part of this model.
- The real texts of `TRUE` and `FALSE`: they are declared in a file that is not part of this model, and only their difference matters here.
- The fields of `BondDoc`, `UpdateBondStatusDoc` and `SovrinDid` that the constructors do not read: the documents are opaque payloads, and a Sovrin DID carries only its DID and verification key.
- The error's SDK codespace and numeric code: `sdk.ErrUnknownRequest` is an SDK library call, so the model keeps only the error kind and its text.
- Settlement, pricing, fees, slippage and reserve accounting: these files only declare the data shapes (price vectors, `MaxPrices`) and contain no such logic.
- The CLI, REST and query handlers, and transaction-proof checks around this core: they parse flags, sign and broadcast transactions, call RPC nodes and print results. All of this is I/O or calls into libraries that are not part of this model.
