/**
 * The in-memory store that stands in for the pool's database port
 * (fuel-txpool/src/mock_db.rs). Its three tables live in one `Data` object;
 * every `MockDb` handle made by cloning points at the same `Data`, so an
 * update through one handle is seen through all of them.
 */
module Mock {
  import opened Wrappers
  import opened TxPool

  /** `Data`: the coins, contract-code and messages tables. */
  class Data<Coin, Msg> {
    var coins: map<UtxoId, Coin>
    var contracts: map<ContractId, Contract>
    var messages: map<MessageId, Msg>

    /** `Data::default`: three empty tables. */
    constructor ()
      ensures coins == map[] && contracts == map[] && messages == map[]
    {
      coins, contracts, messages := map[], map[], map[];
    }
  }

  /** `MockDb`: a handle on a shared `Data`. */
  class MockDb<Coin, Msg> {
    const data: Data<Coin, Msg>

    /** `MockDb::default`: a handle on a fresh, empty store. */
    constructor ()
      ensures fresh(data)
      ensures View() == Tables(map[], map[], map[])
    {
      data := new Data();
    }

    /** The step of `#[derive(Clone)]` that copies the `Arc`: a new handle on an existing `Data`. */
    constructor Sharing(data: Data<Coin, Msg>)
      ensures this.data == data
    {
      this.data := data;
    }

    /** `MockDb::clone`: a new handle on the same store; the tables are not copied. */
    method Clone() returns (c: MockDb<Coin, Msg>)
      ensures fresh(c) && c.data == data
    {
      c := new MockDb.Sharing(data);
    }

    /** The tables as the database port sees them. */
    function View(): Tables<Coin, Msg>
      reads data
    {
      Tables(data.coins, data.contracts, data.messages)
    }

    // Coins

    /** `StorageInspect<Coins>::get`: a copy of the coin under `key`, if any. */
    method GetCoin(key: UtxoId) returns (r: Option<Coin>)
      ensures r.Some? <==> key in data.coins
      ensures r.Some? ==> r.value == data.coins[key]
    {
      r := Get(data.coins, key);
    }

    /** `StorageInspect<Coins>::contains_key`: holds exactly when `get` finds a coin. */
    method ContainsCoin(key: UtxoId) returns (b: bool)
      ensures b <==> Get(data.coins, key).Some?
    {
      b := key in data.coins;
    }

    /**
     * `StorageMutate<Coins>::insert`: store `value` under `key` and return
     * what was there before. Every other entry, of this table and of the
     * other two, stays as it was.
     */
    method InsertCoin(key: UtxoId, value: Coin) returns (prev: Option<Coin>)
      modifies data
      ensures prev == Get(old(data.coins), key)
      ensures Get(data.coins, key) == Some(value)
      ensures data.coins == old(data.coins)[key := value]
      ensures data.contracts == old(data.contracts) && data.messages == old(data.messages)
    {
      prev := Get(data.coins, key);
      data.coins := data.coins[key := value];
    }

    /**
     * `StorageMutate<Coins>::remove`: drop the entry under `key` and return
     * it. Every other entry stays as it was.
     */
    method RemoveCoin(key: UtxoId) returns (prev: Option<Coin>)
      modifies data
      ensures prev == Get(old(data.coins), key)
      ensures Get(data.coins, key) == None && key !in data.coins
      ensures data.coins == old(data.coins) - {key}
      ensures data.contracts == old(data.contracts) && data.messages == old(data.messages)
    {
      prev := Get(data.coins, key);
      data.coins := data.coins - {key};
    }

    // Contract code

    /** `StorageInspect<ContractsRawCode>::get`: a copy of the code under `key`, if any. */
    method GetContractCode(key: ContractId) returns (r: Option<Contract>)
      ensures r.Some? <==> key in data.contracts
      ensures r.Some? ==> r.value == data.contracts[key]
    {
      r := Get(data.contracts, key);
    }

    /** `StorageInspect<ContractsRawCode>::contains_key`: holds exactly when `get` finds code. */
    method ContainsContractCode(key: ContractId) returns (b: bool)
      ensures b <==> Get(data.contracts, key).Some?
    {
      b := key in data.contracts;
    }

    /** `StorageMutate<ContractsRawCode>::insert`: store the bytes `value` as the code under `key`. */
    method InsertContractCode(key: ContractId, value: seq<bv8>) returns (prev: Option<Contract>)
      modifies data
      ensures prev == Get(old(data.contracts), key)
      ensures Get(data.contracts, key) == Some(value)
      ensures data.contracts == old(data.contracts)[key := value]
      ensures data.coins == old(data.coins) && data.messages == old(data.messages)
    {
      prev := Get(data.contracts, key);
      data.contracts := data.contracts[key := value];
    }

    /** `StorageMutate<ContractsRawCode>::remove`: drop the code under `key` and return it. */
    method RemoveContractCode(key: ContractId) returns (prev: Option<Contract>)
      modifies data
      ensures prev == Get(old(data.contracts), key)
      ensures Get(data.contracts, key) == None && key !in data.contracts
      ensures data.contracts == old(data.contracts) - {key}
      ensures data.coins == old(data.coins) && data.messages == old(data.messages)
    {
      prev := Get(data.contracts, key);
      data.contracts := data.contracts - {key};
    }

    /** `MockDb::insert_contract`: the contract-code insert under its own name. */
    method InsertContract(contractId: ContractId, contractCode: seq<bv8>) returns (prev: Option<Contract>)
      modifies data
      ensures prev == Get(old(data.contracts), contractId)
      ensures Get(data.contracts, contractId) == Some(contractCode)
      ensures data.contracts == old(data.contracts)[contractId := contractCode]
      ensures data.coins == old(data.coins) && data.messages == old(data.messages)
    {
      prev := InsertContractCode(contractId, contractCode);
    }

    /** `MockDb::get_contract`: the contract-code lookup under its own name. */
    method GetContract(contractId: ContractId) returns (r: Option<Contract>)
      ensures r == Get(data.contracts, contractId)
    {
      r := GetContractCode(contractId);
    }

    // Messages

    /** `StorageInspect<Messages>::get`: a copy of the message under `key`, if any. */
    method GetMessage(key: MessageId) returns (r: Option<Msg>)
      ensures r.Some? <==> key in data.messages
      ensures r.Some? ==> r.value == data.messages[key]
    {
      r := Get(data.messages, key);
    }

    /** `StorageInspect<Messages>::contains_key`: holds exactly when `get` finds a message. */
    method ContainsMessage(key: MessageId) returns (b: bool)
      ensures b <==> Get(data.messages, key).Some?
    {
      b := key in data.messages;
    }

    /** `StorageMutate<Messages>::insert`: store `value` under `key`, return the previous message. */
    method InsertMessage(key: MessageId, value: Msg) returns (prev: Option<Msg>)
      modifies data
      ensures prev == Get(old(data.messages), key)
      ensures Get(data.messages, key) == Some(value)
      ensures data.messages == old(data.messages)[key := value]
      ensures data.coins == old(data.coins) && data.contracts == old(data.contracts)
    {
      prev := Get(data.messages, key);
      data.messages := data.messages[key := value];
    }

    /** `StorageMutate<Messages>::remove`: drop the message under `key` and return it. */
    method RemoveMessage(key: MessageId) returns (prev: Option<Msg>)
      modifies data
      ensures prev == Get(old(data.messages), key)
      ensures Get(data.messages, key) == None && key !in data.messages
      ensures data.messages == old(data.messages) - {key}
      ensures data.coins == old(data.coins) && data.contracts == old(data.contracts)
    {
      prev := Get(data.messages, key);
      data.messages := data.messages - {key};
    }

    // The database port (`TxPoolDb`), with its default lookups running on this store

    /** `TxPoolDb::utxo` on this store: the `Coins` lookup. */
    method Utxo(utxoId: UtxoId) returns (r: Option<Coin>)
      ensures r == TxPool.Utxo(View(), utxoId)
    {
      r := GetCoin(utxoId);
    }

    /** `TxPoolDb::contract_exist` on this store: the `ContractsRawCode` membership test. */
    method ContractExist(contractId: ContractId) returns (b: bool)
      ensures b == TxPool.ContractExist(View(), contractId)
    {
      b := ContainsContractCode(contractId);
    }

    /** `TxPoolDb::message` on this store: the `Messages` lookup. */
    method Message(messageId: MessageId) returns (r: Option<Msg>)
      ensures r == TxPool.Message(View(), messageId)
    {
      r := GetMessage(messageId);
    }

    /** `TxPoolDb::current_block_height`: always the default height, whatever is stored. */
    method CurrentBlockHeight() returns (h: BlockHeight)
      ensures h == 0
    {
      h := 0;
    }
  }

  /**
   * A coin inserted through a clone of `db` is found through `db` itself,
   * because both handles share one `Data`.
   */
  method CloneSharesUpdates<Coin, Msg>(db: MockDb<Coin, Msg>, key: UtxoId, coin: Coin)
    returns (seen: Option<Coin>)
    modifies db.data
    ensures seen == Some(coin)
    ensures db.View() == old(db.View()).(coins := old(db.data.coins)[key := coin])
  {
    var other := db.Clone();
    var _ := other.InsertCoin(key, coin);
    seen := db.GetCoin(key);
  }
}
