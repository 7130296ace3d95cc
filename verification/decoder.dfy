/**
 * The in-memory side of the chain-state snapshot decoder
 * (crates/chain-config/src/config/codec/decoder.rs): a snapshot held in
 * memory is read back as numbered groups of at most `group_size` records,
 * one table at a time.
 */
module Decoder {
  import opened Wrappers

  /** One batch of records and its position among the batches of its table. */
  datatype Group<T> = Group(data: seq<T>, index: nat)

  /** `GroupResult<T>`: a group, or the error that stopped decoding. */
  type GroupResult<T> = Result<Group<T>, string>

  /**
   * The genesis state: one list of records per table. The record types are
   * only stored and cloned by the decoder, so they are left as parameters.
   */
  datatype StateConfig<CoinConfig, MessageConfig, ContractConfig, ContractStateConfig, BalanceConfig> =
    StateConfig(
      coins: seq<CoinConfig>,
      messages: seq<MessageConfig>,
      contracts: seq<ContractConfig>,
      contractState: seq<ContractStateConfig>,
      contractBalance: seq<BalanceConfig>)

  /** All records of a sequence of groups, in order. */
  function Concat<T>(gs: seq<Group<T>>): seq<T>
  {
    if gs == [] then [] else gs[0].data + Concat(gs[1..])
  }

  /** The records carried by the successful entries of `rs`, in order. */
  function Decoded<T>(rs: seq<GroupResult<T>>): seq<T>
  {
    if rs == [] then []
    else (if rs[0].Success? then rs[0].value.data else []) + Decoded(rs[1..])
  }

  /**
   * The shape `chunks` gives: every group holds between 1 and `size` records,
   * and only the last one may hold fewer than `size`.
   */
  ghost predicate WellSized<T>(gs: seq<Group<T>>, size: nat)
  {
    && (forall i :: 0 <= i < |gs| ==> 0 < |gs[i].data| <= size)
    && (forall i :: 0 <= i < |gs| - 1 ==> |gs[i].data| == size)
  }

  /** The groups are numbered `first`, `first + 1`, ... in order. */
  ghost predicate NumberedFrom<T>(gs: seq<Group<T>>, first: nat)
  {
    forall i :: 0 <= i < |gs| ==> gs[i].index == first + i
  }

  /**
   * `items.chunks(size)` followed by `enumerate`, with the numbering starting
   * at `first`: consecutive slices of `size` records, the last one shorter.
   */
  function Chunks<T>(items: seq<T>, size: nat, first: nat): (gs: seq<Group<T>>)
    requires size > 0
    ensures Concat(gs) == items
    ensures NumberedFrom(gs, first)
    ensures WellSized(gs, size)
    decreases |items|
  {
    if items == [] then []
    else
      var n := if |items| < size then |items| else size;
      [Group(items[..n], first)] + Chunks(items[n..], size, first + 1)
  }

  /** The number of groups is the number of records divided by `size`, rounded up. */
  lemma {:induction false} ChunkCount<T>(items: seq<T>, size: nat, first: nat)
    requires size > 0
    ensures |Chunks(items, size, first)| == (|items| + size - 1) / size
    decreases |items|
  {
    var gs := Chunks(items, size, first);
    if items == [] {
      DivSmall(size - 1, size);
    } else if |items| <= size {
      var n := if |items| < size then |items| else size;
      assert gs == [Group(items[..n], first)] + Chunks(items[n..], size, first + 1);
      assert items[n..] == [];
      DivIsOne(|items| + size - 1, size);
    } else {
      assert gs == [Group(items[..size], first)] + Chunks(items[size..], size, first + 1);
      ChunkCount(items[size..], size, first + 1);
      DivStep(|items| + size - 1, size);
    }
  }

  lemma DivSmall(a: nat, n: nat)
    requires a < n
    ensures a / n == 0
  {
  }

  lemma DivIsOne(a: nat, n: nat)
    requires 0 < n <= a < 2 * n
    ensures a / n == 1
  {
  }

  lemma DivStep(a: nat, n: nat)
    requires 0 < n <= a
    ensures (a - n) / n + 1 == a / n
  {
    var q, r := (a - n) / n, (a - n) % n;
    assert a - n == q * n + r;
    assert a == (q + 1) * n + r;
    DivUnique(a, n, q + 1, r);
  }

  lemma DivUnique(a: int, n: int, q: int, r: int)
    requires 0 <= r < n && a == q * n + r
    ensures a / n == q
  {
    var q', r' := a / n, a % n;
    assert a == q' * n + r' && 0 <= r' < n;
    assert (q' - q) * n == r - r';
    if q' > q {
      MulAtLeast(q' - q, n);
    } else if q' < q {
      MulAtLeast(q - q', n);
    }
  }

  lemma MulAtLeast(k: int, n: int)
    requires k >= 1 && n > 0
    ensures k * n >= n
  {
  }

  /**
   * `Chunks` is the only grouping of `items` that is numbered from `first`
   * and has the `chunks` shape: the properties above determine it.
   */
  lemma {:induction false} ChunksUnique<T>(items: seq<T>, size: nat, first: nat, gs: seq<Group<T>>)
    requires size > 0
    requires Concat(gs) == items
    requires NumberedFrom(gs, first)
    requires WellSized(gs, size)
    ensures gs == Chunks(items, size, first)
    decreases |gs|
  {
    if gs == [] {
    } else {
      var rest := gs[1..];
      assert Concat(gs) == gs[0].data + Concat(rest);
      assert NumberedFrom(rest, first + 1);
      assert WellSized(rest, size);
      ConcatLength(rest);
      if rest == [] {
        assert gs[0].data == items;
      } else {
        assert |gs[0].data| == size;
        assert |Concat(rest)| > 0;
        assert items[..size] == gs[0].data;
        assert items[size..] == Concat(rest);
      }
      ChunksUnique(Concat(rest), size, first + 1, rest);
      assert gs == [gs[0]] + rest;
    }
  }

  lemma {:induction false} ConcatLength<T>(gs: seq<Group<T>>)
    requires forall i :: 0 <= i < |gs| ==> |gs[i].data| > 0
    ensures |Concat(gs)| >= |gs|
    decreases |gs|
  {
    if gs != [] {
      ConcatLength(gs[1..]);
    }
  }

  /** `Decoded` of the successes `Success(g)` for `g` in `gs` is `Concat(gs)`. */
  lemma {:induction false} DecodedOfSuccesses<T>(gs: seq<Group<T>>, rs: seq<GroupResult<T>>)
    requires |rs| == |gs|
    requires forall i :: 0 <= i < |rs| ==> rs[i] == Success(gs[i])
    ensures Decoded(rs) == Concat(gs)
    decreases |gs|
  {
    if gs != [] {
      DecodedOfSuccesses(gs[1..], rs[1..]);
    }
  }

  /**
   * `Decoder::in_memory_iter`: chunk `items` into groups of `groupSize`,
   * number them from 0 and wrap each one in `Ok`. The result is what the
   * returned iterator yields, in order.
   */
  function InMemoryIter<T>(items: seq<T>, groupSize: nat): (rs: seq<GroupResult<T>>)
    requires groupSize > 0
    ensures forall i :: 0 <= i < |rs| ==> rs[i].Success?
    ensures forall i :: 0 <= i < |rs| ==> rs[i].value.index == i
    ensures forall i :: 0 <= i < |rs| ==> 0 < |rs[i].value.data| <= groupSize
    ensures forall i :: 0 <= i < |rs| - 1 ==> |rs[i].value.data| == groupSize
    ensures Decoded(rs) == items
    ensures |rs| == (|items| + groupSize - 1) / groupSize
  {
    var gs := Chunks(items, groupSize, 0);
    var rs := seq(|gs|, i requires 0 <= i < |gs| => Success(gs[i]));
    DecodedOfSuccesses(gs, rs);
    ChunkCount(items, groupSize, 0);
    rs
  }

  /** An empty table yields no group at all; a non-empty one yields at least one. */
  lemma InMemoryIterEmpty<T>(items: seq<T>, groupSize: nat)
    requires groupSize > 0
    ensures InMemoryIter(items, groupSize) == [] <==> items == []
  {
    var rs := InMemoryIter(items, groupSize);
    if items != [] {
      assert Decoded(rs) != [];
    }
  }

  /**
   * `IntoIter::InMemory`: the collected groups, handed out one by one.
   * `groups` is everything the iterator was built with, `yielded` what
   * `Next` has returned so far.
   */
  class IntoIter<T> {
    ghost const groups: seq<GroupResult<T>>
    ghost var yielded: seq<GroupResult<T>>
    var remaining: seq<GroupResult<T>>

    ghost predicate Valid()
      reads this
    {
      yielded + remaining == groups
    }

    constructor (groups: seq<GroupResult<T>>)
      ensures Valid()
      ensures this.groups == groups && yielded == [] && remaining == groups
    {
      this.groups := groups;
      yielded := [];
      remaining := groups;
    }

    /**
     * `Iterator::next`: the next group in order, or `None` once every group
     * has been returned exactly once.
     */
    method Next() returns (r: Option<GroupResult<T>>)
      requires Valid()
      modifies this
      ensures Valid()
      ensures old(remaining) == [] ==> r == None && remaining == [] && yielded == old(yielded)
      ensures old(remaining) != [] ==>
        && r == Some(old(remaining)[0])
        && remaining == old(remaining)[1..]
        && yielded == old(yielded) + [old(remaining)[0]]
      ensures r == None <==> old(yielded) == groups
    {
      if remaining == [] {
        r := None;
      } else {
        r := Some(remaining[0]);
        yielded := yielded + [remaining[0]];
        remaining := remaining[1..];
      }
    }
  }

  /** Where the snapshot comes from; only the in-memory source is modelled. */
  datatype DataSource<CoinConfig, MessageConfig, ContractConfig, ContractStateConfig, BalanceConfig> =
    InMemory(
      state: StateConfig<CoinConfig, MessageConfig, ContractConfig, ContractStateConfig, BalanceConfig>,
      groupSize: nat)

  /** `Decoder`: reads each table of the snapshot as a sequence of groups. */
  datatype Decoder<CoinConfig, MessageConfig, ContractConfig, ContractStateConfig, BalanceConfig> =
    Decoder(dataSource: DataSource<CoinConfig, MessageConfig, ContractConfig, ContractStateConfig, BalanceConfig>)
  {
    /** `Decoder::in_memory`: keep the state and the group size; nothing is checked yet. */
    static function NewInMemory(
      state: StateConfig<CoinConfig, MessageConfig, ContractConfig, ContractStateConfig, BalanceConfig>,
      groupSize: nat): (d: Decoder<CoinConfig, MessageConfig, ContractConfig, ContractStateConfig, BalanceConfig>)
      ensures d.GroupSize() == groupSize && d.State() == state
    {
      Decoder(InMemory(state, groupSize))
    }

    function State(): StateConfig<CoinConfig, MessageConfig, ContractConfig, ContractStateConfig, BalanceConfig>
    {
      dataSource.state
    }

    function GroupSize(): nat
    {
      dataSource.groupSize
    }

    /**
     * `Decoder::create_iterator`, in-memory arm: clone the table the
     * extractor picks and batch it. The stored state is left as it was, so
     * every call starts from the first group again. A group size of zero
     * makes `chunks` panic, hence the precondition.
     */
    method CreateIterator<T>(
      extractor: StateConfig<CoinConfig, MessageConfig, ContractConfig, ContractStateConfig, BalanceConfig> -> seq<T>)
      returns (r: Result<IntoIter<T>, string>)
      requires GroupSize() > 0
      ensures r.Success? && fresh(r.value) && r.value.Valid()
      ensures r.value.yielded == [] && r.value.groups == InMemoryIter(extractor(State()), GroupSize())
    {
      var items := extractor(dataSource.state);
      var it := new IntoIter(InMemoryIter(items, dataSource.groupSize));
      r := Success(it);
    }

    /** `Decoder::coins`: the coins table, batched. */
    method Coins() returns (r: Result<IntoIter<CoinConfig>, string>)
      requires GroupSize() > 0
      ensures r.Success? && fresh(r.value) && r.value.Valid()
      ensures r.value.yielded == [] && r.value.groups == InMemoryIter(State().coins, GroupSize())
    {
      r := CreateIterator((s: StateConfig<CoinConfig, MessageConfig, ContractConfig, ContractStateConfig, BalanceConfig>) => s.coins);
    }

    /** `Decoder::messages`: the messages table, batched. */
    method Messages() returns (r: Result<IntoIter<MessageConfig>, string>)
      requires GroupSize() > 0
      ensures r.Success? && fresh(r.value) && r.value.Valid()
      ensures r.value.yielded == [] && r.value.groups == InMemoryIter(State().messages, GroupSize())
    {
      r := CreateIterator((s: StateConfig<CoinConfig, MessageConfig, ContractConfig, ContractStateConfig, BalanceConfig>) => s.messages);
    }

    /** `Decoder::contracts`: the contracts table, batched. */
    method Contracts() returns (r: Result<IntoIter<ContractConfig>, string>)
      requires GroupSize() > 0
      ensures r.Success? && fresh(r.value) && r.value.Valid()
      ensures r.value.yielded == [] && r.value.groups == InMemoryIter(State().contracts, GroupSize())
    {
      r := CreateIterator((s: StateConfig<CoinConfig, MessageConfig, ContractConfig, ContractStateConfig, BalanceConfig>) => s.contracts);
    }

    /** `Decoder::contract_state`: the contract storage slots, batched. */
    method ContractState() returns (r: Result<IntoIter<ContractStateConfig>, string>)
      requires GroupSize() > 0
      ensures r.Success? && fresh(r.value) && r.value.Valid()
      ensures r.value.yielded == [] && r.value.groups == InMemoryIter(State().contractState, GroupSize())
    {
      r := CreateIterator((s: StateConfig<CoinConfig, MessageConfig, ContractConfig, ContractStateConfig, BalanceConfig>) => s.contractState);
    }

    /** `Decoder::contract_balance`: the contract balances, batched. */
    method ContractBalance() returns (r: Result<IntoIter<BalanceConfig>, string>)
      requires GroupSize() > 0
      ensures r.Success? && fresh(r.value) && r.value.Valid()
      ensures r.value.yielded == [] && r.value.groups == InMemoryIter(State().contractBalance, GroupSize())
    {
      r := CreateIterator((s: StateConfig<CoinConfig, MessageConfig, ContractConfig, ContractStateConfig, BalanceConfig>) => s.contractBalance);
    }
  }
}
