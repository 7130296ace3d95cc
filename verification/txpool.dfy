/**
 * The transaction-pool interface types (crates/fuel-core-interfaces/src/txpool.rs):
 * the update record the pool announces for each transaction, the error
 * taxonomy, and the lookups a pool makes through its database port.
 */
module TxPool {
  import opened Wrappers

  /** A 32-byte hash (`Bytes32`, `TxId`). */
  type Bytes32 = s: seq<bv8> | |s| == 32 witness seq(32, _ => 0 as bv8)

  type TxId = Bytes32

  /** `UtxoId`: the transaction that created an output and the output's position in it. */
  datatype UtxoId = UtxoId(txId: TxId, outputIndex: bv8)

  datatype ContractId = ContractId(bytes: Bytes32)

  datatype MessageId = MessageId(bytes: Bytes32)

  /** `Word`: an unsigned 64-bit machine word. */
  newtype Word = x: int | 0 <= x < 0x1_0000_0000_0000_0000

  /** `BlockHeight`: an unsigned 32-bit block number; its default is zero. */
  newtype BlockHeight = x: int | 0 <= x < 0x1_0000_0000

  /** `Contract`: the raw bytecode of a deployed contract. */
  type Contract = seq<bv8>

  /** Why the pool refused a transaction, or why it dropped one it held. */
  datatype Error =
    | NoMetadata
    | NotSupportedTransactionType
    | NotInsertedTxKnown
    | NotInsertedLimitHit
    | NotInsertedGasPriceTooLow
    | NotInsertedCollision(tx: TxId, utxo: UtxoId)
    | NotInsertedCollisionContractId(contract: ContractId)
    | NotInsertedCollisionMessageId(tx: TxId, message: MessageId)
    | NotInsertedOutputNotExisting(utxo: UtxoId)
    | NotInsertedInputContractNotExisting(contract: ContractId)
    | NotInsertedContractIdAlreadyTaken(contract: ContractId)
    | NotInsertedInputUtxoIdNotExisting(utxo: UtxoId)
    | NotInsertedInputUtxoIdSpent(utxo: UtxoId)
    | NotInsertedInputMessageIdSpent(message: MessageId)
    | NotInsertedInputMessageUnknown(message: MessageId)
    | NotInsertedContractPricedLower(contract: ContractId)
    | NotInsertedIoWrongOwner
    | NotInsertedIoWrongAmount
    | NotInsertedIoWrongAssetId
    | NotInsertedIoWrongMessageId
    | NotInsertedIoContractOutput
    | NotInsertedIoMessageInput
    | NotInsertedMaxDepth
    | NotInsertedMaxGasLimit(txGas: Word, blockLimit: Word)
    | Removed
    | SqueezedOut(reason: string)

  /**
   * `TxUpdate`: what the pool announces about one transaction. No reason
   * means the transaction is now in the pool; a reason means it was dropped.
   * Equality is structural, field by field.
   */
  datatype TxUpdate = TxUpdate(txId: Bytes32, squeezedOut: Option<Error>)
  {
    /** `TxUpdate::updated`: the transaction `txId` entered the pool. */
    static function Updated(txId: Bytes32): (u: TxUpdate)
      ensures u.TxId() == txId
      ensures !u.WasSqueezedOut() && u.IntoSqueezedOutReason() == None
    {
      TxUpdate(txId, None)
    }

    /** `TxUpdate::squeezed_out`: the transaction `txId` left the pool because of `reason`. */
    static function SqueezedOut(txId: Bytes32, reason: Error): (u: TxUpdate)
      ensures u.TxId() == txId
      ensures u.WasSqueezedOut() && u.IntoSqueezedOutReason() == Some(reason)
    {
      TxUpdate(txId, Some(reason))
    }

    /** `TxUpdate::tx_id`: the id the update was built with. */
    function TxId(): (r: Bytes32)
      ensures r == txId
    {
      txId
    }

    /** `TxUpdate::was_squeezed_out`: exactly when a reason is recorded. */
    function WasSqueezedOut(): (b: bool)
      ensures b <==> IntoSqueezedOutReason().Some?
    {
      squeezedOut.Some?
    }

    /** `TxUpdate::into_squeezed_out_reason`: the recorded reason, `None` for an update that entered the pool. */
    function IntoSqueezedOutReason(): (r: Option<Error>)
      ensures r.Some? <==> squeezedOut.Some?
      ensures r.Some? ==> r.value == squeezedOut.value
    {
      squeezedOut
    }
  }

  /** Every update is built by exactly one of the two constructors, from its own id and reason. */
  lemma TxUpdateConstructed(u: TxUpdate)
    ensures !u.WasSqueezedOut() ==> u == TxUpdate.Updated(u.TxId())
    ensures u.WasSqueezedOut() ==> u == TxUpdate.SqueezedOut(u.TxId(), u.IntoSqueezedOutReason().value)
  {
  }

  /** Two updates are equal exactly when their ids and their reasons are equal. */
  lemma TxUpdateEquality(a: TxUpdate, b: TxUpdate)
    ensures a == b <==> a.TxId() == b.TxId() && a.IntoSqueezedOutReason() == b.IntoSqueezedOutReason()
  {
  }

  /**
   * The three tables a `TxPoolDb` reads: unspent coins, deployed contract
   * code, and messages. The coin and message records are only stored and
   * cloned here, so their types are left as parameters.
   */
  datatype Tables<Coin, Msg> = Tables(
    coins: map<UtxoId, Coin>,
    contractsRawCode: map<ContractId, Contract>,
    messages: map<MessageId, Msg>)

  /** `TxPoolDb::utxo`: the coin stored under `utxoId`, if any. */
  function Utxo<Coin, Msg>(db: Tables<Coin, Msg>, utxoId: UtxoId): (r: Option<Coin>)
    ensures r.Some? <==> utxoId in db.coins
    ensures r.Some? ==> r.value == db.coins[utxoId]
  {
    Get(db.coins, utxoId)
  }

  /** `TxPoolDb::contract_exist`: whether code is stored under `contractId`. */
  function ContractExist<Coin, Msg>(db: Tables<Coin, Msg>, contractId: ContractId): (b: bool)
    ensures b <==> Get(db.contractsRawCode, contractId).Some?
  {
    contractId in db.contractsRawCode
  }

  /** `TxPoolDb::message`: the message stored under `messageId`, if any. */
  function Message<Coin, Msg>(db: Tables<Coin, Msg>, messageId: MessageId): (r: Option<Msg>)
    ensures r.Some? <==> messageId in db.messages
    ensures r.Some? ==> r.value == db.messages[messageId]
  {
    Get(db.messages, messageId)
  }
}
