# Fuel node: snapshot batching, pool notifications and the mock database port

This project models three small pieces of a Fuel blockchain node in Dafny and proves properties about them.

- **Snapshot batching** (`Decoder` module, `decoder.dfy`). A genesis state held in memory has one record list per table: coins, messages, contracts, contract state and contract balances. The decoder reads a table back as groups. Each group holds at most `group_size` records and carries its ordinal index. `InMemoryIter` is the pure chunking pipeline. `IntoIter` is the cursor that hands the groups out one at a time. The `Decoder` datatype selects a table, clones it and batches it.
- **Pool interface types** (`TxPool` module, `txpool.dfy`). This covers the `TxUpdate` record the pool announces for each transaction, the `Error` taxonomy as a tagged union with its payloads, and the three default lookups of the `TxPoolDb` database port. Those lookups read the coins, contract-code and messages tables.
- **Mock database** (`Mock` module, `mock_db.dfy`). This is the in-memory store that implements the port. `Data` is an object holding three `map` fields that are updated in place. `MockDb` is a handle on a shared `Data`. Cloning a handle shares the store instead of copying it. Each table has `get`, `contains_key`, `insert` and `remove`. Insert and remove return the previous entry.

`Wrappers` (`wrappers.dfy`) holds `Option`, `Result` and `Get`. `Get` is the `HashMap::get`-then-clone lookup that every table read uses.

The record payloads are never examined by this code. That covers coin, message and contract configs, and the `Coin` and `Message` entities. They are only stored and cloned, so the model leaves them as type parameters. Ids are 32-byte values. A `UtxoId` is a transaction id plus an output index. `Word` is an unsigned 64-bit newtype and `BlockHeight` an unsigned 32-bit one.

## Model

| member | source | states |
|---|---|---|
| `Decoder.Chunks` | crates/chain-config/src/config/codec/decoder.rs:179-184 | Concatenating the groups gives back exactly the input records. The groups are numbered consecutively from the starting index. Every group has between 1 and `size` records, and every group except the last has exactly `size`. |
| `Decoder.ChunkCount` | crates/chain-config/src/config/codec/decoder.rs:179-192 | The number of groups is the record count divided by the group size, rounded up. |
| `Decoder.ChunksUnique` | crates/chain-config/src/config/codec/decoder.rs:179-184 | Any grouping that concatenates to the input, is numbered from `first` and has the `chunks` shape equals `Chunks`, so those properties fully determine the batching. |
| `Decoder.InMemoryIter` | crates/chain-config/src/config/codec/decoder.rs:178-195 | Every produced entry is `Ok`, and entry `i` has index `i`. Group sizes follow the `chunks` shape. The decoded records equal the input list. The number of entries is ceil(len / group_size). |
| `Decoder.InMemoryIterEmpty` | crates/chain-config/src/config/codec/decoder.rs:179-192 | No groups are produced exactly when the input is empty. |
| `Decoder.IntoIter.constructor` | crates/chain-config/src/config/codec/decoder.rs:191-194 | A new iterator has yielded nothing, and all of its groups remain. |
| `Decoder.IntoIter.Next` | crates/chain-config/src/config/codec/decoder.rs:47-51 | Returns the next group in order and advances. Once every group has been returned exactly once, it returns `None` and the state stays unchanged. `yielded + remaining` always equals the original groups. |
| `Decoder.Decoder.NewInMemory` | crates/chain-config/src/config/codec/decoder.rs:84-88 | The decoder keeps exactly the given state and group size. |
| `Decoder.Decoder.CreateIterator` | crates/chain-config/src/config/codec/decoder.rs:157-166 | The in-memory arm always returns `Ok`. The fresh iterator's groups are `InMemoryIter` of the table the extractor picks. The stored state is not consumed. |
| `Decoder.Decoder.Coins` | crates/chain-config/src/config/codec/decoder.rs:117-123 | Batches exactly `state.coins`. |
| `Decoder.Decoder.Messages` | crates/chain-config/src/config/codec/decoder.rs:125-131 | Batches exactly `state.messages`. |
| `Decoder.Decoder.Contracts` | crates/chain-config/src/config/codec/decoder.rs:133-139 | Batches exactly `state.contracts`. |
| `Decoder.Decoder.ContractState` | crates/chain-config/src/config/codec/decoder.rs:141-147 | Batches exactly `state.contract_state`. |
| `Decoder.Decoder.ContractBalance` | crates/chain-config/src/config/codec/decoder.rs:149-155 | Batches exactly `state.contract_balance`. |
| `TxPool.TxUpdate.Updated` | crates/fuel-core-interfaces/src/txpool.rs:219-224 | The update carries the given id. It is not squeezed out and has no reason. |
| `TxPool.TxUpdate.SqueezedOut` | crates/fuel-core-interfaces/src/txpool.rs:226-231 | The update carries the given id. It is squeezed out and its reason is `Some(reason)`. |
| `TxPool.TxUpdate.TxId` | crates/fuel-core-interfaces/src/txpool.rs:233-235 | Returns the id the update was built with. Through the contracts of `Updated` and `SqueezedOut`, that is the id passed to either constructor. |
| `TxPool.TxUpdate.IntoSqueezedOutReason` | crates/fuel-core-interfaces/src/txpool.rs:241-243 | Returns the recorded reason: `None` for `updated(id)`, `Some(reason)` for `squeezed_out(id, reason)`. The constructors' contracts and `TxUpdateConstructed` tie it to them. |
| `TxPool.TxUpdate.WasSqueezedOut` | crates/fuel-core-interfaces/src/txpool.rs:237-243 | Holds exactly when `into_squeezed_out_reason` is `Some`. |
| `TxPool.TxUpdateConstructed` | crates/fuel-core-interfaces/src/txpool.rs:212-244 | Every update equals the constructor call its own accessors describe: `updated(id)` when not squeezed out, otherwise `squeezed_out(id, reason)`. |
| `TxPool.TxUpdateEquality` | crates/fuel-core-interfaces/src/txpool.rs:212-216 | Two updates are equal exactly when their ids and their optional reasons are equal. |
| `TxPool.Utxo` | crates/fuel-core-interfaces/src/txpool.rs:55-59 | Returns the coins-table entry at the id, or `None` when the id is absent. |
| `TxPool.ContractExist` | crates/fuel-core-interfaces/src/txpool.rs:61-63 | True exactly when a contract-code lookup at the id finds an entry. |
| `TxPool.Message` | crates/fuel-core-interfaces/src/txpool.rs:65-69 | Returns the messages-table entry at the id, or `None` when the id is absent. |
| `Mock.Data.constructor` | fuel-txpool/src/mock_db.rs:38-43 | All three tables start empty. |
| `Mock.MockDb.constructor` | fuel-txpool/src/mock_db.rs:45-48 | The default handle owns a fresh store whose three tables are empty. |
| `Mock.MockDb.Clone` | fuel-txpool/src/mock_db.rs:45-48 | The clone is a new handle on the same `Data`, not a copy. |
| `Mock.MockDb.GetCoin` | fuel-txpool/src/mock_db.rs:76-84 | Returns the stored coin at the key, or `None` when the key is absent. |
| `Mock.MockDb.ContainsCoin` | fuel-txpool/src/mock_db.rs:86-88 | True exactly when `get` at the key is `Some`. |
| `Mock.MockDb.InsertCoin` | fuel-txpool/src/mock_db.rs:92-98 | Returns the previous entry (`None` if the key is new). Afterwards `get` at the key gives the new value. Every other key and both other tables are unchanged. |
| `Mock.MockDb.RemoveCoin` | fuel-txpool/src/mock_db.rs:100-102 | Returns the previous entry. Afterwards `get` gives `None` and `contains_key` is false. Every other key and both other tables are unchanged. |
| `Mock.MockDb.GetContractCode` | fuel-txpool/src/mock_db.rs:108-116 | Returns the stored code at the key, or `None` when the key is absent. |
| `Mock.MockDb.ContainsContractCode` | fuel-txpool/src/mock_db.rs:118-120 | True exactly when `get` at the key is `Some`. |
| `Mock.MockDb.InsertContractCode` | fuel-txpool/src/mock_db.rs:124-135 | Returns the previous code. Afterwards the key maps to the given bytes. Everything else is unchanged. |
| `Mock.MockDb.RemoveContractCode` | fuel-txpool/src/mock_db.rs:137-139 | Returns the previous code. Afterwards the key is absent. Everything else is unchanged. |
| `Mock.MockDb.InsertContract` | fuel-txpool/src/mock_db.rs:51-61 | Returns the prior contract at the id. A following `get_contract` of the id returns the given code. |
| `Mock.MockDb.GetContract` | fuel-txpool/src/mock_db.rs:63-68 | Returns the contract-code entry at the id, or `None`. |
| `Mock.MockDb.GetMessage` | fuel-txpool/src/mock_db.rs:145-153 | Returns the stored message at the key, or `None` when the key is absent. |
| `Mock.MockDb.ContainsMessage` | fuel-txpool/src/mock_db.rs:155-157 | True exactly when `get` at the key is `Some`. |
| `Mock.MockDb.InsertMessage` | fuel-txpool/src/mock_db.rs:161-172 | Returns the previous message. Afterwards `get` gives the new value. Everything else is unchanged. |
| `Mock.MockDb.RemoveMessage` | fuel-txpool/src/mock_db.rs:174-176 | Returns the previous message. Afterwards the key is absent. Everything else is unchanged. |
| `Mock.MockDb.Utxo` | crates/fuel-core-interfaces/src/txpool.rs:55-59 | The port's default `utxo`, running on the mock, agrees with `TxPool.Utxo` over the mock's tables. |
| `Mock.MockDb.ContractExist` | crates/fuel-core-interfaces/src/txpool.rs:61-63 | The port's default `contract_exist`, running on the mock, agrees with `TxPool.ContractExist`. |
| `Mock.MockDb.Message` | crates/fuel-core-interfaces/src/txpool.rs:65-69 | The port's default `message`, running on the mock, agrees with `TxPool.Message`. |
| `Mock.MockDb.CurrentBlockHeight` | fuel-txpool/src/mock_db.rs:179-183 | Always the default height 0, whatever the store holds. |
| `Mock.CloneSharesUpdates` | fuel-txpool/src/mock_db.rs:45-48 | A coin inserted through a clone is found through the original handle, and the coins table now holds it. |

## Left out

- Parquet and JSON sources are not modelled. This covers `Decoder::json`, `Decoder::parquet`, `detect_encoding`, the `Parquet` arm of `create_iterator` and the `Parquet` variant of `IntoIter`. They read files, parse JSON or run a parquet decoder that is not part of this model. Only the in-memory `DataSource` is modelled.
- A group size of 0 is not modelled. `Decoder::in_memory` stores it without checking, and itertools' `chunks` panics on it when an iterator is created. The model therefore requires a positive group size on `CreateIterator` and the table accessors.
- The outer `anyhow::Result` of the accessors is always `Ok` in the in-memory arm. The `string` error type stands in for `anyhow::Error`, whose only source is the unmodelled parquet path.
- The human-readable `#[error(...)]` message of each `Error` variant is not modelled. Only the variant's tag and its payload are modelled, and nothing in this code reads the text.
- The `Sender` request methods and the `TxPoolMpsc` command protocol are not modelled. They are asynchronous channel plumbing, with no pool logic in them.
- The pool's admission, conflict-resolution, eviction and ordering engine is not part of this model. Only its boundary types are visible here.
- `TxPool.Utxo`, `TxPool.ContractExist` and `TxPool.Message` return the lookup result without the `Result<_, StorageError>` wrapper. A store's own read errors are not modelled, and the mock store never returns `Err`.
- The `StorageInspect`/`StorageMutate` trait machinery and `KvStoreError` are not modelled. Each table's operations are separate methods of `MockDb`.
- `Arc<Mutex<Data>>` locking and lock-poisoning `unwrap()` are not modelled. The store is single-threaded, and sharing through `Arc` is modelled as several `MockDb` objects referring to one `Data` object.
- crates/services/producer/src/mocks.rs is not part of this model. It holds executor and relayer test doubles built on block operations that are not shown.
