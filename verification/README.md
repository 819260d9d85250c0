# Plasma child chain: root-chain synchronizer and UTXO transaction, in Dafny

This project models the core of a Plasma-style child chain written in Go:

- **The root-chain event synchronizer** (`core/rootchain.go`). `NewRootChain` fills a handler table that maps event names to handlers and starts a poll loop for the `Deposit` event. `loopEvent` starts its watermark at block 100. It returns at once if the contract address is not hex. Otherwise, each round it queries the event source from the watermark on. A failed query ends the loop. On success, every returned event goes, in order, to `sub[eventName]`, and the watermark moves to `int64(last.BlockNum) + 1` when the batch is non-empty. `dealWithDepositEvent` turns a deposit into a fixed-shape transaction and gives the operator a batch of one. `dealWithExitStartedEvent` does nothing.
- **The UTXO transaction** (`core/types`, as its tests use it). A transaction has exactly two inputs (`UTXO` = `UTXOID` + `TxOut`), two outputs (`TxOut`), a `*big.Int` fee and two signature slots. `Fee()` returns a copy that callers may change freely. `SignTx` signs each input slot for a chain identifier and does not check that values balance. Unmarshalling what marshalling produced succeeds.

Modules:

- `Results`: Option and Result.
- `Types`: the value types, the fee as a mutable `BigInt` class, and the `Transaction` class.
- `Signing`: a symbolic signer, `SignTx` and its partner `VerifyTx`.
- `Encoding`: marshal and unmarshal over a field list.
- `TransactionTests`: the transaction tests, restated as methods and lemmas.
- `Core`: the synchronizer. It has two parts:
  - specification functions: `Effect`, `Dispatch`, `Round`, `Run`, `LoopSpec`;
  - the imperative `RootChain` and `Operator` classes, whose methods are proved against those functions.

Parameters stand in for I/O:

- The event source is a function `Query -> Result<seq<ContractEvent>, SourceError>`. A query carries the round, the address, the watermark and the event name, so the source may answer anything, fail in any round, or return events in any order.
- Dialling the RPC endpoint becomes an `Option<string>` error parameter.
- The infinite poll loop runs for at most `fuel` rounds. When the rounds run out it ends with `Suspended`.

`core/types/transaction.go` is not part of this model. The transaction's shape is taken from the `NewTransaction` call in `core/rootchain.go` and from the fields the tests assign.

## Model

| member | source | states |
|---|---|---|
| `Types.Transaction.NewTransaction` | core/rootchain.go:114 | builds a transaction with exactly the two inputs, two outputs and fee it is given, and no signatures; there is no balance check; the fee is held in fresh storage |
| `Types.Transaction.Empty` | core/types/transaction_test.go:14 | `new(Transaction)`: two padding inputs, two padding outputs, fee 0, no signatures |
| `Types.BigInt.Add` | core/types/transaction_test.go:18 | `z.Add(x, y)` sets the receiver to x + y and returns the receiver itself |
| `Types.BigInt.NewInt` | core/rootchain.go:113 | `big.NewInt(x)` holds exactly x |
| `Types.Transaction.Fee` | core/types/transaction_test.go:17 | returns a freshly allocated integer equal to the stored fee, never the stored one |
| `TransactionTests.TestFee` | core/types/transaction_test.go:13-24 | stored fee 10; the copy, increased in place by 1, is 11; the stored fee stays 10 |
| `TransactionTests.FeeCopyIsIndependent` | core/types/transaction_test.go:13-24 | for any transaction and any change d: the changed copy is fee + d, and a second `Fee()` still returns the stored fee |
| `Signing.SignTx` | core/types/transaction_test.go:55-58 | succeeds iff every non-padding input has a key; leaves inputs, outputs and fee unchanged; each offered key's signature recovers, over the signed transaction's hash, to that key's address; a slot with no key stays empty |
| `Signing.VerifyTx` | core/types/transaction_test.go:55-58 | accepts iff each input is padding or its slot holds a signature over the hash that recovers to the input's owner; a rejection names a slot that fails this |
| `Signing.SigHashBinding` | core/types/transaction_test.go:43 | two hashes are equal iff the chain identifiers, inputs, outputs and fee are equal; signatures play no part |
| `Signing.RecoverSignDigest` | core/types/transaction_test.go:55 | a signature recovers to its key's address over the digest it signed, and to nothing over any other digest |
| `Signing.SignThenVerify` | core/types/transaction_test.go:55-58 | when keys cover the non-padding inputs, signing succeeds, and the result verifies iff each key belongs to its input's owner |
| `Signing.SameKeyForBothSlots` | core/types/transaction_test.go:120-123 | when both inputs have the same owner, that owner's one key in both slots signs and verifies |
| `Signing.WrongKeyRejected` | core/types/transaction_test.go:55-58 | a key that is not the owner's, offered for a non-padding input, makes verification fail |
| `Signing.SignatureBoundToChain` | core/types/transaction_test.go:43 | a transaction signed for one chain identifier does not verify for another when any input is not padding |
| `Encoding.Marshal` | core/types/transaction_test.go:60-64 | always succeeds and gives exactly 17 values, the last three being the fee and the two signature slots |
| `Encoding.Unmarshal` | core/types/transaction_test.go:66-71 | a field list of the wrong length fails with its count; success implies 17 fields |
| `Encoding.UnmarshalMarshalSucceeds` | core/types/transaction_test.go:60-71 | for every transaction, signed or not, unmarshalling its marshalled form succeeds |
| `Encoding.UnmarshalJSON` | core/types/transaction_test.go:66-71 | on success the receiver holds the decoded record with a fresh fee; on failure it returns the error and leaves the receiver unchanged |
| `TransactionTests.TestMarshalTx` | core/types/transaction_test.go:36-76 | inputs 50 + 0 against outputs 90 + 0 and fee 10: signing with the sender's key succeeds although nothing balances; the result verifies and unmarshals |
| `TransactionTests.TestMarshalTxWithKeyStore` | core/types/transaction_test.go:103-136 | inputs 10 + 10 in blocks 1 and 2, outputs 14 + 5, fee 1: signing with one key in both slots succeeds, verifies and unmarshals |
| `TransactionTests.UnmarshalIntoNewTransaction` | core/types/transaction_test.go:66-71 | unmarshalling a marshalled transaction into `new(Transaction)` returns no error |
| `Core.RootChain.constructor` | core/rootchain.go:53-67 | the table maps exactly `"Deposit"` to the deposit handler and `"ExistedStart"` to the exit-started handler; only the `Deposit` loop is started |
| `Core.NewRootChain` | core/rootchain.go:45-70 | a dial error returns nil and the formatted error; otherwise a fresh synchronizer with the two-handler table, the given contract address, interface descriptor and operator, and only the `Deposit` loop launched |
| `Core.ToInt64` | core/rootchain.go:93 | the result is in the `int64` range and congruent to the input modulo 2^64 |
| `Core.DepositTx` | core/rootchain.go:98-114 | output 1 is (depositor, amount); output 2 and both inputs are zero-owner, zero-amount slots with `UTXOID` (0,0,0); unsigned; fee 1; inputs total 0 and outputs total the deposit |
| `Core.DepositTxNeedsNoSignature` | core/rootchain.go:104-114 | the deposit transaction verifies under any chain identifier with no signature, and signing it with no keys succeeds and leaves it as it is |
| `Core.Effect` | core/rootchain.go:98-124 | the exit-started handler has no effect; the deposit handler panics iff the event holds no deposit, and otherwise submits exactly `[DepositTx(deposit)]` |
| `Core.DispatchDeposits` | core/rootchain.go:88-90 | deposit events under the deposit handler: no panic, one batch per event, and the i-th batch is exactly the i-th deposit's transaction |
| `Core.Dispatch` | core/rootchain.go:88-90 | dispatch hands the operator at most one batch per event |
| `Core.DispatchPanicsIff` | core/rootchain.go:88-90 | dispatch panics exactly when handling one of the events panics |
| `Core.HandleEvent` | core/rootchain.go:89 | a call through the table panics exactly when the name has no handler, or the deposit handler gets a non-deposit value; it submits exactly when the deposit handler gets a deposit, and then the batch `[DepositTx(deposit)]` |
| `Core.DispatchExitStarted` | core/rootchain.go:88-90 | under the exit-started handler the operator receives nothing and nothing panics |
| `Core.DispatchUnregistered` | core/rootchain.go:89 | a name with no handler panics on the first event, before any batch; an empty batch calls nothing |
| `Core.DispatchPanicSticks` | core/rootchain.go:88-90 | once a prefix of the events has panicked, the remaining events change nothing |
| `Core.NextWatermarkAdvance` | core/rootchain.go:92-94 | an empty batch leaves the watermark unchanged; a non-empty one sets it to the last event's block + 1 when that block is below 2^63 - 1 |
| `Core.NextWatermark` | core/rootchain.go:92-94 | an empty batch keeps the watermark; otherwise the new one is in the `int64` range and congruent to the last event's block + 1 modulo 2^64 |
| `Core.NextWatermarkWraps` | core/rootchain.go:93 | at block 2^63 - 1 the `int64` addition wraps and the watermark becomes -2^63 |
| `Core.LoopSpec` | core/rootchain.go:72-79 | a non-hex address ends the loop with no query and no batch; otherwise the first query is from block 100 in round 0 |
| `Core.HexDecode` | core/rootchain.go:75-79 | on success one byte, below 256, per two characters; an invalid-byte error names a character that is not a hex digit |
| `Core.HexDecodeSucceeds` | core/rootchain.go:75-79 | decoding the address succeeds exactly when it has an even number of characters, all hex digits (`ValidHex`) |
| `Core.Round` | core/rootchain.go:82-94 | a round stops only on a failed query or a panic; it stops with `QueryFailed(e)` exactly when the source answered `Err(e)`, and then with no batch; a round that goes on had a successful answer, and an empty answer keeps the watermark; at most one batch per event |
| `Core.Run` | core/rootchain.go:81-95 | at most one query per round; a run never ends with `BadAddress`; a run that used up its rounds made one query in each |
| `Core.RoundAdvances` | core/rootchain.go:92-94 | if the source keeps to the queried range, a round that goes on never moves the watermark back |
| `Core.RunQueryShape` | core/rootchain.go:81-83 | at most one query per round; with at least one round, the first query is at the starting watermark in the starting round; every query uses the loop's address and event name |
| `Core.RunQueryChain` | core/rootchain.go:82-94 | each query after the first comes only after the one before succeeded, one round later, at the watermark that success computed |
| `Core.RunStopsAtQueryError` | core/rootchain.go:82-86 | the loop ends with `QueryFailed(e)` exactly when its last query failed, and then with that query's error |
| `Core.RunWatermarkMonotone` | core/rootchain.go:92-94 | if the source keeps to the queried range, the watermark never moves back: queries are non-decreasing and end at or below the final watermark |
| `Core.DepositRoundScenario` | core/rootchain.go:72-94 | deposits at blocks 101 and 103 in one round give the operator two batches, 101's first, and a watermark of 104 |
| `Core.EmptyRoundScenario` | core/rootchain.go:92-94 | a round with no events leaves the watermark at 100 and gives the operator nothing |
| `Core.FailedQueryScenario` | core/rootchain.go:82-86 | a failed first query ends the loop after one query with no batch, however many rounds remained |
| `Core.Operator.AddTxs` | core/rootchain.go:118 | the operator's log grows by exactly one batch holding the records of the transactions passed |
| `Core.RootChain.DealWithDepositEvent` | core/rootchain.go:98-121 | panics iff the event holds no deposit. Otherwise it makes exactly one `AddTxs` call, whose batch is `[DepositTx(deposit)]`, built through `NewTransaction` |
| `Core.RootChain.Call` | core/rootchain.go:89 | calling a handler gives the operator exactly what `Effect` says, and reports a panic exactly when `Effect` panics |
| `Core.RootChain.DealWithExitStartedEvent` | core/rootchain.go:123-124 | the exit-started handler never panics and, with an empty frame, changes nothing |
| `Core.RootChain.DispatchAll` | core/rootchain.go:88-90 | the operator's log grows by exactly `Dispatch`'s batches, and it panics exactly when `Dispatch` does |
| `Core.RootChain.PollRound` | core/rootchain.go:82-94 | one pass of the loop: stops exactly when `Round` stops, with its outcome; otherwise returns `Round`'s next watermark; the operator's log grows by exactly `Round`'s batches |
| `Core.RootChain.LoopEvent` | core/rootchain.go:72-96 | outcome, final watermark and the batches the operator receives are exactly those of `LoopSpec` |

## Left out

- The goroutine that runs the loop, `time.Sleep` between rounds, and the logging calls are concurrency, timing and side output. The loop is sequential and runs a bounded number of rounds.
- `Core.RootChain.LoopEvent`: the loop never ends on its own. The model stops after `fuel` rounds with `Suspended`, so it says nothing about rounds beyond that bound.
- `ethclient.Dial`, `chain.Set`, `GetContractEvents` and ABI decoding are network and foreign-library calls. The event source is a function parameter, and dialling is an error parameter.
- `Core.HexDecode` follows the error order of the Go standard library's `hex.DecodeString` (an invalid character before an odd length), which is not part of this model; the loop only tests for an error. The decoded bytes are not passed on: each query carries the address string.
- The `abiStr` interface descriptor and the `reflect.TypeOf(event)` target shape are dropped: `abiStr` is stored but never read, and no query carries either. The event source function is taken to close over them. A decoded value is either a deposit or something else.
- The deposit event's `Raw` log field is left out; nothing in the core reads it.
- A panic is modelled as a loop outcome (`HandlerPanicked`), not as a crashing process. It covers two cases: a non-deposit value reaching the deposit handler, and a call through a missing handler.
- `Core.Effect`: a `*DepositEvent` value that is nil passes the type assertion and then panics when `out.Depositor` is read (core/rootchain.go:102). `EventValue` has no nil deposit, so the model does not capture this panic.
- `core/types/transaction.go` is not part of this model. `NewTransaction` is assumed to store a copy of the fee it is given.
- `new(Transaction)` has nil input, output and fee pointers. The model reads them as padding slots and a zero fee.
- ECDSA, key generation, Keccak hashing and EIP-155 replay protection are symbolic. A digest is the tuple it commits to, so it is collision-free. A signature records the digest and the signer's address.
- `Signing.VerifyTx`: it does not model that flipping a bit of a real signature breaks it, because signatures are symbolic.
- The JSON byte layout is not known. Marshalling produces a list of 17 typed field values in a fixed order, and only "unmarshalling succeeds" is proved.
- `Encoding.UnmarshalMarshalSucceeds` does not claim the decoded transaction equals the original. The tests assert only that decoding succeeds; their `reflect.DeepEqual` check fails the test when the two are equal.
- Whether `SignTx` rejects a key that is not the input owner's is not visible. The model's `SignTx` fails only when a non-padding input has no key, and ownership is checked by `VerifyTx`.
- The keystore reading and decryption in `TestMarshalTxWithKeyStore`, and the allocation benchmark, are file I/O and performance. The key becomes a parameter.
- `network/node.go` (configuration, ABI file loading, server start-up) is process wiring, not core logic.
- The operator's pending pool and block building are out of scope. `Operator` only records the batches it is handed.
