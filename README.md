# pitico: sending Bitcoin Cash, modelled in Dafny

This project models the one piece of the pitico wallet with real logic of its
own: `sendBch` in `src/utils/sendBch.js`. It sends Bitcoin Cash (BCH) from a
wallet to a list of recipients in a single transaction. sendBch runs these steps:

1. It sums the requested amounts.
2. It stops silently when the wallet balance is not positive.
3. It picks the largest unspent transaction output (UTXO) of the wallet.
4. It adds that UTXO as the only input of a transaction builder.
5. It computes the miner fee and the change.
6. It adds one output per recipient in request order, then one change output back to the sender.
7. It signs and broadcasts the transaction and returns a block-explorer link.

Everything is in `sendbch.dfy`, module `SendBch`:

- `FindBiggestUtxo` is the linear scan of `findBiggestUtxo`. Like the source, it keeps a running
  amount that starts at 0 and compares with a strict `>`.
- `TransactionBuilder` is a class with `inputs` and `outputs` sequences, and `AddInput` and
  `AddOutput` methods.
- `Sum`, `TxFee`, `ChangeValue`, `RecipientOutputs` and `PlannedOutputs` are the pure
  arithmetic and the expected output list.
- `ExplorerLink` and `ParseExplorerLink` form the explorer link and take it apart again.
- `SendBch` is the pipeline. The network's answers are its parameters:
  - the balance in BCH, as a `real`;
  - the UTXO list;
  - the transaction id the broadcast returns, or `None` when the broadcast throws.
- The network (mainnet or testnet) is an explicit parameter. The source reads it from the
  `REACT_APP_NETWORK` environment variable.
- Amounts are integer satoshis, and `toSatoshi` is the identity. The source sums the BCH
  floats first and converts the sum once, but converts each recipient's amount separately.
  With exact integers the two conversions agree.
- `byteCount` stands for `getByteCount({P2PKH: 1}, {P2PKH: 2})`. It is a parameter, so it is an
  arbitrary constant that does not depend on the request.

The model keeps the code's actual behaviour, including three points where a hardened send would do more:

- The fee uses the fixed size of 1 input and 2 outputs, whatever the number of recipients.
  So the fee is `recipients * byteCount`.
- There is no insufficient-funds error. The change output is always appended, even when its
  value is zero or negative (`OverspendStillEmitsChange`); `SendBch` then returns `Sent` whenever the balance is positive, a UTXO exists and the broadcast returns an id.
- An empty UTXO list has no dedicated error. `findBiggestUtxo` returns `undefined`, and the
  next read of `utxo.satoshis` throws (`UndefinedUtxo`).

## Model

| member | source | states |
|---|---|---|
| `SendBch.FindBiggestUtxo` | src/utils/sendBch.js:136-150 | Returns nothing exactly when the list is empty. Otherwise it returns the entry at an index satisfying `IsSelection`: the first occurrence of a positive maximum, or index 0 when no amount is positive. |
| `SendBch.SelectionIsUnique` | src/utils/sendBch.js:143-146 | At most one index satisfies `IsSelection`, so the selection is deterministic. |
| `SendBch.SelectionIsFirstMaximum` | src/utils/sendBch.js:136-149 | When no amount is negative, an index is selected if and only if it holds a largest amount and no earlier entry holds as much. Ties go to the lowest index. |
| `SendBch.AllNonPositiveSelectsFirst` | src/utils/sendBch.js:137-146 | Because the running amount starts at 0, a list with no positive amount selects index 0 and only index 0. |
| `SendBch.Sum` | src/utils/sendBch.js:15 | The left-fold total of the requested values (`values.reduce`). When no value is negative, the total is non-negative and no single value exceeds it. |
| `SendBch.SumConcat` | src/utils/sendBch.js:15 | The left-fold total of the requested values is additive over concatenation. |
| `SendBch.TxFee` | src/utils/sendBch.js:46-48 | `Math.floor(1.0 * recipients * byteCount)` is exactly `recipients * byteCount` satoshis. It depends only on the recipient count and not on the amounts. |
| `SendBch.FeeIsMonotonic` | src/utils/sendBch.js:46-48 | The fee never decreases as the recipient count grows. It strictly increases when `byteCount` is positive. |
| `SendBch.RecipientTotal` | src/utils/sendBch.js:55-58 | The recipient outputs together carry exactly the sum of the first `addresses.length` values. |
| `SendBch.SurplusValuesGoToFee` | src/utils/sendBch.js:15-59 | All outputs, plus the fee, plus any values beyond the last address, equal the input's satoshis. Such surplus values are in the amount sent but have no output, so they go to the miner. |
| `SendBch.ValueConservation` | src/utils/sendBch.js:37-59 | With one value per address, the outputs plus the fee equal the selected input's satoshis exactly. |
| `SendBch.ChangeValue` | src/utils/sendBch.js:52 | The remainder, the amount to send and the fee `n * byteCount` add up to the input's satoshis. The remainder is negative exactly when the input is below the amount plus the fee, and nothing checks its sign. |
| `SendBch.RecipientOutputs` | src/utils/sendBch.js:55-58 | One output per address, in request order: output i pays `values[i]` to `addresses[i]`. |
| `SendBch.PlannedOutputs` | src/utils/sendBch.js:52-59 | There are `n + 1` outputs. Output i pays `values[i]` to `addresses[i]`. The last output pays `input - sum(values) - n * byteCount` to the sender, and that value is negative exactly when the input is below the amount plus the fee. |
| `SendBch.OverspendStillEmitsChange` | src/utils/sendBch.js:52-59 | In the scenario with UTXOs of 100000 and 50000 satoshis and a request for 200000, the first UTXO is selected and the planned change output is `-100000 - byteCount`. sendBch.js has no check of its own on the remainder's sign. |
| `SendBch.ExplorerLink` | src/utils/sendBch.js:85-89 | The link is the mainnet or testnet explorer prefix, and what follows the prefix is exactly the transaction id. |
| `SendBch.ExplorerLinkRoundTrip` | src/utils/sendBch.js:85-89 | Parsing a link gives back the network and the transaction id it was formed from. |
| `SendBch.ExplorerLinkInjective` | src/utils/sendBch.js:85-89 | Two equal links have the same network and the same transaction id. |
| `SendBch.TransactionBuilder.constructor` | src/utils/sendBch.js:34-35 | A new builder is tagged with the network and has no inputs and no outputs. |
| `SendBch.TransactionBuilder.AddInput` | src/utils/sendBch.js:43 | Appends the input (txid, vout) and leaves the outputs unchanged. |
| `SendBch.TransactionBuilder.AddOutput` | src/utils/sendBch.js:57-59 | Appends the output (address, value) and leaves the inputs unchanged. |
| `SendBch.SendBch` | src/utils/sendBch.js:13-92 | A balance of at most 0 returns with nothing selected, built or broadcast. A positive balance with no UTXO fails. Otherwise the transaction has exactly one input, the selected UTXO, and the planned outputs. With one value per address, its outputs plus the fee equal that UTXO's value. The broadcast either throws or yields the explorer link for the returned id. |

## Left out

- Key derivation from the mnemonic (`changeAddrFromMnemonic`, lines 100-116) is left out. It is BIP-39 seed derivation and BIP-32 derivation along `m/44'/145'/0'` then `0/0`, all inside the library.
- Signing the single input with `SIGHASH_ALL`, `build()` and `toHex()` (lines 65-80) are left out. They are library internals. The model treats the builder's contents as the broadcast transaction.
- The network calls are left out, namely `bitbox.Address.details` (inside `getBCHBalance`), `bitbox.Address.utxo` and `bitbox.RawTransactions.sendRawTransaction`. Their results are parameters of `SendBch`. A failing balance or UTXO lookup just rethrows, and that is not modelled.
- Async/await, the `try`/`catch` that rethrows, and `console` logging are left out.
- Floating-point BCH amounts and `toSatoshi` are not modelled. Amounts are exact integer satoshis, so float rounding is not captured.
- `getByteCount`'s size formula is left out. It is library code, so the model takes its result as the parameter `byteCount`.
- `TransactionBuilder.AddOutput` is a plain append. Any check the library's `addOutput` makes on the address or the value (line 59) is not modelled, so a negative change is accepted by the model.
- The REST endpoint chosen by network (lines 10-11) is left out. It only configures the library's HTTP client.
- Number widths are left out. Satoshi amounts are unbounded integers, and JavaScript's 53-bit float integers and the ledger's 64-bit amounts are not modelled.
- `SendBch.SendBch`: requires at least as many values as addresses, because a missing `values[i]` is `undefined` in the source and its effect inside the library is not visible.
- `src/components/Create.js` is not part of this model. It is the React form for token creation, which delegates to an external wallet API.
