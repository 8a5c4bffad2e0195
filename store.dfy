/**
 * The store and the four write handlers: `createERC20`, `createNFT`, `updateERC20`
 * and `updateNFT`.
 *
 * The store holds the three tables and, per table, the next value of its serial
 * sequence. Each write takes the clock reading `now` that stands in for
 * `new Date()` and for the columns' `defaultNow()`; the clock never runs backwards,
 * so `now` is no earlier than any timestamp already stored.
 *
 * Handlers receive input that has already passed its input schema.
 */
module Store {
  import opened Wrappers
  import opened Tables
  import opened Schema
  import opened Queries
  import opened Reads

  datatype TableName = ContractsTable | Erc20PropertiesTable | NftPropertiesTable

  /** What the handlers throw. */
  datatype Error =
    /** An insert found its table's serial sequence at its maximum. */
    | SequenceExhausted(table: TableName)
    /** The database refused an insert into the table (a lost connection, an error Postgres raises). */
    | Rejected(table: TableName)
    /** "Contract with id ... not found" */
    | NotFound(id: int)
    /** "Contract with id ... is not an ERC20 contract" */
    | NotERC20(id: int)
    /** "Contract with ID ... is not an NFT contract" */
    | NotNFT(id: int)
    /** The re-read after an update found no contract row. */
    | ReadBackMissing(id: int)

  /**
   * Whether an insert into `table`, whose sequence stands at `next`, fails: the
   * sequence is exhausted, or the database refuses the row. `rejected` is the
   * database's answer for this call, which the model takes as given.
   */
  predicate InsertFails(next: int, table: TableName, rejected: set<TableName>) {
    next > MaxSerial || table in rejected
  }

  /** The error of a failed insert; the sequence is drawn before the row is written. */
  function InsertError(next: int, table: TableName): Error {
    if next > MaxSerial then SequenceExhausted(table) else Rejected(table)
  }

  /** What validated input leaves in the tables, and timestamps that never run backwards within a row. */
  ghost predicate RowsWellFormed(contracts: seq<ContractRow>, erc20s: seq<Erc20Row>, nfts: seq<NftRow>) {
    && (forall k :: 0 <= k < |contracts| ==> ContractRowWellFormed(contracts[k]))
    && (forall k :: 0 <= k < |erc20s| ==> Erc20RowWellFormed(erc20s[k]))
    && (forall k :: 0 <= k < |nfts| ==> NftRowWellFormed(nfts[k]))
  }

  ghost predicate ContractRowWellFormed(c: ContractRow) {
    NameOk(c.name) && SymbolOk(c.symbol) && c.created_at <= c.updated_at
  }

  ghost predicate Erc20RowWellFormed(p: Erc20Row) {
    IsDigits(p.total_supply) && Erc20PropertiesValid(p) && p.created_at <= p.updated_at
  }

  ghost predicate NftRowWellFormed(p: NftRow) {
    MaxSupplyOk(p.maximum_supply) && p.created_at <= p.updated_at
  }

  /** No stored timestamp is later than `now`. */
  ghost predicate NoStampAfter(contracts: seq<ContractRow>, erc20s: seq<Erc20Row>, nfts: seq<NftRow>, now: Timestamp) {
    && (forall k :: 0 <= k < |contracts| ==> contracts[k].updated_at <= now)
    && (forall k :: 0 <= k < |erc20s| ==> erc20s[k].updated_at <= now)
    && (forall k :: 0 <= k < |nfts| ==> nfts[k].updated_at <= now)
  }

  /** The store invariant over the three tables and their sequences. */
  ghost predicate StoreInvariant(contracts: seq<ContractRow>, erc20s: seq<Erc20Row>, nfts: seq<NftRow>,
                                 contractsNext: int, erc20Next: int, nftNext: int) {
    && 1 <= contractsNext <= MaxSerial + 1
    && 1 <= erc20Next <= MaxSerial + 1
    && 1 <= nftNext <= MaxSerial + 1
    && ContractIdsSerial(contracts, contractsNext)
    && Erc20IdsSerial(erc20s, erc20Next)
    && NftIdsSerial(nfts, nftNext)
    && Consistent(contracts, erc20s, nfts)
    && RowsWellFormed(contracts, erc20s, nfts)
  }

  /** Inserting a validated contract row under the next serial id keeps the invariant. */
  lemma InvariantAfterContractInsert(contracts: seq<ContractRow>, erc20s: seq<Erc20Row>, nfts: seq<NftRow>,
                                     contractsNext: int, erc20Next: int, nftNext: int, row: ContractRow, now: Timestamp)
    requires StoreInvariant(contracts, erc20s, nfts, contractsNext, erc20Next, nftNext)
    requires NoStampAfter(contracts, erc20s, nfts, now)
    requires contractsNext <= MaxSerial && row.id == contractsNext
    requires ContractRowWellFormed(row) && row.updated_at <= now
    ensures StoreInvariant(contracts + [row], erc20s, nfts, contractsNext + 1, erc20Next, nftNext)
    ensures NoStampAfter(contracts + [row], erc20s, nfts, now)
    ensures forall id :: TagOf(contracts, id).Some? ==> TagOf(contracts + [row], id) == TagOf(contracts, id)
    ensures forall k :: 0 <= k < |contracts| ==> contracts[k].id != row.id
    ensures FindContract(contracts, row.id).None? && FindContract(contracts + [row], row.id) == Some(row)
    ensures FindErc20(erc20s, row.id).None? && FindNft(nfts, row.id).None?
    ensures forall k :: 0 <= k < |erc20s| ==> erc20s[k].contract_id != row.id
    ensures forall k :: 0 <= k < |nfts| ==> nfts[k].contract_id != row.id
  {
    FreshIdUnused(contracts, erc20s, nfts, contractsNext);
    FindContractSpec(contracts, row.id);
    ConsistentAfterContractInsert(contracts, erc20s, nfts, row);
    FindContractAppend(contracts, row, row.id);
    var cs := contracts + [row];
    forall k | 0 <= k < |cs| ensures ContractRowWellFormed(cs[k]) && cs[k].updated_at <= now {
      if k < |contracts| { assert cs[k] == contracts[k]; }
    }
  }

  /** Inserting the first, validated ERC20 row of an ERC20 contract under the next serial id keeps the invariant. */
  lemma {:induction false} InvariantAfterErc20Insert(contracts: seq<ContractRow>, erc20s: seq<Erc20Row>, nfts: seq<NftRow>,
                                  contractsNext: int, erc20Next: int, nftNext: int, row: Erc20Row, now: Timestamp)
    requires StoreInvariant(contracts, erc20s, nfts, contractsNext, erc20Next, nftNext)
    requires NoStampAfter(contracts, erc20s, nfts, now)
    requires erc20Next <= MaxSerial && row.id == erc20Next
    requires TagOf(contracts, row.contract_id) == Some(ERC20) && FindErc20(erc20s, row.contract_id).None?
    requires Erc20RowWellFormed(row) && row.updated_at <= now
    ensures StoreInvariant(contracts, erc20s + [row], nfts, contractsNext, erc20Next + 1, nftNext)
    ensures NoStampAfter(contracts, erc20s + [row], nfts, now)
    ensures forall k :: 0 <= k < |erc20s| ==> erc20s[k].id != row.id
    ensures FindErc20(erc20s + [row], row.contract_id) == Some(row)
  {
    ConsistentAfterErc20Insert(contracts, erc20s, nfts, row);
    FindErc20Append(erc20s, row, row.contract_id);
    var es := erc20s + [row];
    forall k | 0 <= k < |es| ensures Erc20RowWellFormed(es[k]) && es[k].updated_at <= now {
      if k < |erc20s| { assert es[k] == erc20s[k]; }
    }
  }

  lemma {:induction false} InvariantAfterNftInsert(contracts: seq<ContractRow>, erc20s: seq<Erc20Row>, nfts: seq<NftRow>,
                                contractsNext: int, erc20Next: int, nftNext: int, row: NftRow, now: Timestamp)
    requires StoreInvariant(contracts, erc20s, nfts, contractsNext, erc20Next, nftNext)
    requires NoStampAfter(contracts, erc20s, nfts, now)
    requires nftNext <= MaxSerial && row.id == nftNext
    requires TagOf(contracts, row.contract_id) == Some(NFT) && FindNft(nfts, row.contract_id).None?
    requires NftRowWellFormed(row) && row.updated_at <= now
    ensures StoreInvariant(contracts, erc20s, nfts + [row], contractsNext, erc20Next, nftNext + 1)
    ensures NoStampAfter(contracts, erc20s, nfts + [row], now)
    ensures forall k :: 0 <= k < |nfts| ==> nfts[k].id != row.id
    ensures FindNft(nfts + [row], row.contract_id) == Some(row)
  {
    ConsistentAfterNftInsert(contracts, erc20s, nfts, row);
    FindNftAppend(nfts, row, row.contract_id);
    var ns := nfts + [row];
    forall k | 0 <= k < |ns| ensures NftRowWellFormed(ns[k]) && ns[k].updated_at <= now {
      if k < |nfts| { assert ns[k] == nfts[k]; }
    }
  }

  /** Writing validated `name`/`symbol` values with the clock reading keeps the invariant. */
  lemma InvariantAfterSetContracts(contracts: seq<ContractRow>, erc20s: seq<Erc20Row>, nfts: seq<NftRow>,
                                   contractsNext: int, erc20Next: int, nftNext: int,
                                   id: int, ch: ContractChanges, now: Timestamp)
    requires StoreInvariant(contracts, erc20s, nfts, contractsNext, erc20Next, nftNext)
    requires NoStampAfter(contracts, erc20s, nfts, now)
    requires ch.name.Some? ==> NameOk(ch.name.value)
    requires ch.symbol.Some? ==> SymbolOk(ch.symbol.value)
    ensures StoreInvariant(SetContracts(contracts, id, ch, now), erc20s, nfts, contractsNext, erc20Next, nftNext)
    ensures NoStampAfter(SetContracts(contracts, id, ch, now), erc20s, nfts, now)
    ensures Complete(contracts, erc20s, nfts) ==> Complete(SetContracts(contracts, id, ch, now), erc20s, nfts)
    ensures forall x :: TagOf(SetContracts(contracts, id, ch, now), x) == TagOf(contracts, x)
  {
    ConsistentAfterSetContracts(contracts, erc20s, nfts, id, ch, now);
    var cs := SetContracts(contracts, id, ch, now);
    forall k | 0 <= k < |cs|
      ensures cs[k].id == contracts[k].id && ContractRowWellFormed(cs[k]) && cs[k].updated_at <= now
    {
      assert ContractRowWellFormed(contracts[k]);
    }
    assert ContractIdsSerial(cs, contractsNext);
  }

  lemma InvariantAfterSetErc20(contracts: seq<ContractRow>, erc20s: seq<Erc20Row>, nfts: seq<NftRow>,
                               contractsNext: int, erc20Next: int, nftNext: int,
                               contractId: int, ch: Erc20Changes, now: Timestamp)
    requires StoreInvariant(contracts, erc20s, nfts, contractsNext, erc20Next, nftNext)
    requires NoStampAfter(contracts, erc20s, nfts, now)
    requires ch.total_supply.Some? ==> IsDigits(ch.total_supply.value)
    requires ch.decimals.Some? ==> DecimalsOk(ch.decimals.value)
    ensures StoreInvariant(contracts, SetErc20(erc20s, contractId, ch, now), nfts, contractsNext, erc20Next, nftNext)
    ensures NoStampAfter(contracts, SetErc20(erc20s, contractId, ch, now), nfts, now)
    ensures Complete(contracts, erc20s, nfts) ==> Complete(contracts, SetErc20(erc20s, contractId, ch, now), nfts)
  {
    ConsistentAfterSetErc20(contracts, erc20s, nfts, contractId, ch, now);
    var es := SetErc20(erc20s, contractId, ch, now);
    forall k | 0 <= k < |es|
      ensures es[k].id == erc20s[k].id && Erc20RowWellFormed(es[k]) && es[k].updated_at <= now
    {
      assert Erc20RowWellFormed(erc20s[k]);
    }
    assert Erc20IdsSerial(es, erc20Next);
  }

  lemma InvariantAfterSetNft(contracts: seq<ContractRow>, erc20s: seq<Erc20Row>, nfts: seq<NftRow>,
                             contractsNext: int, erc20Next: int, nftNext: int,
                             contractId: int, ch: NftChanges, now: Timestamp)
    requires StoreInvariant(contracts, erc20s, nfts, contractsNext, erc20Next, nftNext)
    requires NoStampAfter(contracts, erc20s, nfts, now)
    requires ch.maximum_supply.Some? ==> MaxSupplyOk(ch.maximum_supply.value)
    ensures StoreInvariant(contracts, erc20s, SetNft(nfts, contractId, ch, now), contractsNext, erc20Next, nftNext)
    ensures NoStampAfter(contracts, erc20s, SetNft(nfts, contractId, ch, now), now)
    ensures Complete(contracts, erc20s, nfts) ==> Complete(contracts, erc20s, SetNft(nfts, contractId, ch, now))
  {
    ConsistentAfterSetNft(contracts, erc20s, nfts, contractId, ch, now);
    var ns := SetNft(nfts, contractId, ch, now);
    forall k | 0 <= k < |ns|
      ensures ns[k].id == nfts[k].id && NftRowWellFormed(ns[k]) && ns[k].updated_at <= now
    {
      assert NftRowWellFormed(nfts[k]);
    }
    assert NftIdsSerial(ns, nftNext);
  }

  /** A contract id the sequence has not handed out yet has no rows anywhere. */
  lemma FreshIdUnused(contracts: seq<ContractRow>, erc20s: seq<Erc20Row>, nfts: seq<NftRow>, next: int)
    requires ContractIdsSerial(contracts, next) && Consistent(contracts, erc20s, nfts)
    ensures FindContract(contracts, next).None?
    ensures FindErc20(erc20s, next).None?
    ensures FindNft(nfts, next).None?
    ensures forall k :: 0 <= k < |erc20s| ==> erc20s[k].contract_id != next
    ensures forall k :: 0 <= k < |nfts| ==> nfts[k].contract_id != next
  {
    FindContractSpec(contracts, next);
    forall k | 0 <= k < |erc20s| ensures erc20s[k].contract_id != next {
      assert TagOf(contracts, erc20s[k].contract_id).Some?;
      FindContractSpec(contracts, erc20s[k].contract_id);
    }
    forall k | 0 <= k < |nfts| ensures nfts[k].contract_id != next {
      assert TagOf(contracts, nfts[k].contract_id).Some?;
      FindContractSpec(contracts, nfts[k].contract_id);
    }
    FindErc20Spec(erc20s, next);
    FindNftSpec(nfts, next);
  }

  /**
   * What `getContract` returns from a store that keeps the invariant obeys the row
   * constraints: a non-empty name, a 1..10 symbol, a digit-string supply with
   * `decimals` in 0..18, and a null or digit-string `maximum_supply`.
   */
  lemma GetContractWellFormed(contracts: seq<ContractRow>, erc20s: seq<Erc20Row>, nfts: seq<NftRow>,
                              contractsNext: int, erc20Next: int, nftNext: int, id: int)
    requires StoreInvariant(contracts, erc20s, nfts, contractsNext, erc20Next, nftNext)
    ensures var r := GetContract(contracts, erc20s, nfts, id);
      r.Some? ==>
        && NameOk(r.value.name) && SymbolOk(r.value.symbol) && 1 <= r.value.id
        && (r.value.erc20_properties.NonNull? ==>
              IsDigits(r.value.erc20_properties.value.total_supply)
              && DecimalsOk(r.value.erc20_properties.value.decimals))
        && (r.value.nft_properties.NonNull? ==> MaxSupplyOk(r.value.nft_properties.value.maximum_supply))
  {
    GetContractSpec(contracts, erc20s, nfts, id);
  }

  /**
   * The re-read of `updateERC20`: the contract left-joined with `erc20_properties`
   * only, `nft_properties` forced to null. No contract row is an error (the source
   * then reads a field of `undefined`).
   */
  function ReadBackERC20(contracts: seq<ContractRow>, erc20s: seq<Erc20Row>, id: int): Result<ContractWithProperties, Error> {
    match FindContract(contracts, id)
    case None => Err(ReadBackMissing(id))
    case Some(c) => Ok(ContractWithProperties(c.id, c.name, c.symbol, c.contract_type, c.created_at, c.updated_at,
                                              LeftJoin(FindErc20(erc20s, c.id)), Null))
  }

  /** The re-read of `updateNFT`, joined with `nft_properties` only; no row is "Updated contract ... not found". */
  function ReadBackNFT(contracts: seq<ContractRow>, nfts: seq<NftRow>, id: int): Result<ContractWithProperties, Error> {
    match FindContract(contracts, id)
    case None => Err(ReadBackMissing(id))
    case Some(c) => Ok(ContractWithProperties(c.id, c.name, c.symbol, c.contract_type, c.created_at, c.updated_at,
                                              Null, LeftJoin(FindNft(nfts, c.id))))
  }

  /** For an existing ERC20 contract in a consistent store, the update's re-read is exactly `getContract`. */
  lemma ReadBackERC20IsGet(contracts: seq<ContractRow>, erc20s: seq<Erc20Row>, nfts: seq<NftRow>, id: int)
    requires Consistent(contracts, erc20s, nfts)
    requires TagOf(contracts, id) == Some(ERC20)
    ensures GetContract(contracts, erc20s, nfts, id).Some?
    ensures ReadBackERC20(contracts, erc20s, id) == Ok(GetContract(contracts, erc20s, nfts, id).value)
  {
    GetContractMatchesTag(contracts, erc20s, nfts, id);
  }

  lemma ReadBackNFTIsGet(contracts: seq<ContractRow>, erc20s: seq<Erc20Row>, nfts: seq<NftRow>, id: int)
    requires Consistent(contracts, erc20s, nfts)
    requires TagOf(contracts, id) == Some(NFT)
    ensures GetContract(contracts, erc20s, nfts, id).Some?
    ensures ReadBackNFT(contracts, nfts, id) == Ok(GetContract(contracts, erc20s, nfts, id).value)
  {
    GetContractMatchesTag(contracts, erc20s, nfts, id);
  }

  // ---------------------------------------------------------------------------
  // The effect of the update handlers on the tables, as values.
  // ---------------------------------------------------------------------------

  /** A table is written only when its change set has a field: `if (Object.keys(...).length > 0)`. */
  function WrittenContracts(contracts: seq<ContractRow>, id: int, ch: ContractChanges, now: Timestamp): seq<ContractRow> {
    if ch.IsEmpty() then contracts else SetContracts(contracts, id, ch, now)
  }

  function WrittenErc20(erc20s: seq<Erc20Row>, id: int, ch: Erc20Changes, now: Timestamp): seq<Erc20Row> {
    if ch.IsEmpty() then erc20s else SetErc20(erc20s, id, ch, now)
  }

  function WrittenNft(nfts: seq<NftRow>, id: int, ch: NftChanges, now: Timestamp): seq<NftRow> {
    if ch.IsEmpty() then nfts else SetNft(nfts, id, ch, now)
  }

  /**
   * The contract `updateERC20` returns, in terms of the stored contract row `c` and
   * properties row `p` it started from: each present input field replaces the stored
   * one, each table's `updated_at` moves to `now` exactly when one of its fields
   * was present, and nothing else differs.
   */
  ghost predicate ERC20Updated(c: ContractRow, p: Option<Erc20Row>, input: UpdateERC20Input, now: Timestamp,
                               v: ContractWithProperties) {
    && v.id == c.id && v.contract_type == c.contract_type && v.created_at == c.created_at
    && v.name == input.name.GetOr(c.name) && v.symbol == input.symbol.GetOr(c.symbol)
    && v.updated_at == (if input.name.Some? || input.symbol.Some? then now else c.updated_at)
    && v.nft_properties == Null
    && (p.None? <==> v.erc20_properties.Null?)
    && (p.Some? ==>
          var q := v.erc20_properties.value;
          && q.id == p.value.id && q.contract_id == p.value.contract_id && q.created_at == p.value.created_at
          && q.total_supply == input.total_supply.GetOr(p.value.total_supply)
          && q.decimals == input.decimals.GetOr(p.value.decimals)
          && q.updated_at == (if input.total_supply.Some? || input.decimals.Some? then now else p.value.updated_at))
  }

  /** The contract `updateNFT` returns; a present `maximum_supply` of `Null` clears the column. */
  ghost predicate NFTUpdated(c: ContractRow, p: Option<NftRow>, input: UpdateNFTInput, now: Timestamp,
                             v: ContractWithProperties) {
    && v.id == c.id && v.contract_type == c.contract_type && v.created_at == c.created_at
    && v.name == input.name.GetOr(c.name) && v.symbol == input.symbol.GetOr(c.symbol)
    && v.updated_at == (if input.name.Some? || input.symbol.Some? then now else c.updated_at)
    && v.erc20_properties == Null
    && (p.None? <==> v.nft_properties.Null?)
    && (p.Some? ==>
          var q := v.nft_properties.value;
          && q.id == p.value.id && q.contract_id == p.value.contract_id && q.created_at == p.value.created_at
          && q.base_uri == input.base_uri.GetOr(p.value.base_uri)
          && q.maximum_supply == input.maximum_supply.GetOr(p.value.maximum_supply)
          && q.updated_at == (if input.base_uri.Some? || input.maximum_supply.Some? then now else p.value.updated_at))
  }

  /** A contract update keeps tags, touches only the contract's own row, and patches that row. */
  lemma WrittenContractsLookups(contracts: seq<ContractRow>, erc20s: seq<Erc20Row>, nfts: seq<NftRow>,
                                id: int, ch: ContractChanges, now: Timestamp)
    requires Consistent(contracts, erc20s, nfts)
    requires FindContract(contracts, id).Some?
    ensures var cs := WrittenContracts(contracts, id, ch, now);
      && (forall x :: TagOf(cs, x) == TagOf(contracts, x))
      && (forall x :: x != id ==> FindContract(cs, x) == FindContract(contracts, x))
      && FindContract(cs, id) == Some(if ch.IsEmpty() then FindContract(contracts, id).value
                                      else PatchContract(FindContract(contracts, id).value, ch, now))
  {
    if !ch.IsEmpty() {
      ConsistentAfterSetContracts(contracts, erc20s, nfts, id, ch, now);
      forall x ensures x != id ==> FindContract(SetContracts(contracts, id, ch, now), x) == FindContract(contracts, x) {
        FindContractAfterSet(contracts, id, ch, now, x);
      }
      FindContractAfterSet(contracts, id, ch, now, id);
    }
  }

  lemma WrittenErc20Lookups(erc20s: seq<Erc20Row>, id: int, ch: Erc20Changes, now: Timestamp)
    ensures var es := WrittenErc20(erc20s, id, ch, now);
      && (forall x :: x != id ==> FindErc20(es, x) == FindErc20(erc20s, x))
      && (FindErc20(erc20s, id).None? ==> FindErc20(es, id).None?)
      && (FindErc20(erc20s, id).Some? ==>
            FindErc20(es, id) == Some(if ch.IsEmpty() then FindErc20(erc20s, id).value
                                      else PatchErc20(FindErc20(erc20s, id).value, ch, now)))
  {
    if !ch.IsEmpty() {
      forall x ensures x != id ==> FindErc20(SetErc20(erc20s, id, ch, now), x) == FindErc20(erc20s, x) {
        FindErc20AfterSet(erc20s, id, ch, now, x);
      }
      FindErc20AfterSet(erc20s, id, ch, now, id);
    }
  }

  lemma WrittenNftLookups(nfts: seq<NftRow>, id: int, ch: NftChanges, now: Timestamp)
    ensures var ns := WrittenNft(nfts, id, ch, now);
      && (forall x :: x != id ==> FindNft(ns, x) == FindNft(nfts, x))
      && (FindNft(nfts, id).None? ==> FindNft(ns, id).None?)
      && (FindNft(nfts, id).Some? ==>
            FindNft(ns, id) == Some(if ch.IsEmpty() then FindNft(nfts, id).value
                                    else PatchNft(FindNft(nfts, id).value, ch, now)))
  {
    if !ch.IsEmpty() {
      forall x ensures x != id ==> FindNft(SetNft(nfts, id, ch, now), x) == FindNft(nfts, x) {
        FindNftAfterSet(nfts, id, ch, now, x);
      }
      FindNftAfterSet(nfts, id, ch, now, id);
    }
  }

  /**
   * `updateERC20` on an existing ERC20 contract: the written tables keep the
   * invariant, the clock bound and completeness; and the re-read succeeds, equals
   * `getContract` on the new tables, and is the stored contract with the input applied.
   */
  lemma UpdateERC20Effect(contracts: seq<ContractRow>, erc20s: seq<Erc20Row>, nfts: seq<NftRow>,
                          contractsNext: int, erc20Next: int, nftNext: int, input: UpdateERC20Input, now: Timestamp)
    requires StoreInvariant(contracts, erc20s, nfts, contractsNext, erc20Next, nftNext)
    requires NoStampAfter(contracts, erc20s, nfts, now)
    requires UpdateERC20InputValid(input) && TagOf(contracts, input.id) == Some(ERC20)
    ensures var cs := WrittenContracts(contracts, input.id, ContractChanges(input.name, input.symbol), now);
      var es := WrittenErc20(erc20s, input.id, Erc20Changes(input.total_supply, input.decimals), now);
      && StoreInvariant(cs, es, nfts, contractsNext, erc20Next, nftNext)
      && NoStampAfter(cs, es, nfts, now)
      && (Complete(contracts, erc20s, nfts) ==> Complete(cs, es, nfts))
      && ReadBackERC20(cs, es, input.id).Ok?
      && GetContract(cs, es, nfts, input.id) == Some(ReadBackERC20(cs, es, input.id).value)
      && ERC20Updated(FindContract(contracts, input.id).value, FindErc20(erc20s, input.id), input, now,
                      ReadBackERC20(cs, es, input.id).value)
  {
    var cch := ContractChanges(input.name, input.symbol);
    var ech := Erc20Changes(input.total_supply, input.decimals);
    var cs := WrittenContracts(contracts, input.id, cch, now);
    var es := WrittenErc20(erc20s, input.id, ech, now);
    if !cch.IsEmpty() {
      InvariantAfterSetContracts(contracts, erc20s, nfts, contractsNext, erc20Next, nftNext, input.id, cch, now);
    }
    if !ech.IsEmpty() {
      InvariantAfterSetErc20(cs, erc20s, nfts, contractsNext, erc20Next, nftNext, input.id, ech, now);
    }
    WrittenContractsLookups(contracts, erc20s, nfts, input.id, cch, now);
    WrittenErc20Lookups(erc20s, input.id, ech, now);
    ReadBackERC20IsGet(cs, es, nfts, input.id);
  }

  lemma UpdateNFTEffect(contracts: seq<ContractRow>, erc20s: seq<Erc20Row>, nfts: seq<NftRow>,
                        contractsNext: int, erc20Next: int, nftNext: int, input: UpdateNFTInput, now: Timestamp,
                        isUrl: string -> bool)
    requires StoreInvariant(contracts, erc20s, nfts, contractsNext, erc20Next, nftNext)
    requires NoStampAfter(contracts, erc20s, nfts, now)
    requires UpdateNFTInputValid(input, isUrl) && TagOf(contracts, input.id) == Some(NFT)
    ensures var cs := WrittenContracts(contracts, input.id, ContractChanges(input.name, input.symbol), now);
      var ns := WrittenNft(nfts, input.id, NftChanges(input.base_uri, input.maximum_supply), now);
      && StoreInvariant(cs, erc20s, ns, contractsNext, erc20Next, nftNext)
      && NoStampAfter(cs, erc20s, ns, now)
      && (Complete(contracts, erc20s, nfts) ==> Complete(cs, erc20s, ns))
      && ReadBackNFT(cs, ns, input.id).Ok?
      && GetContract(cs, erc20s, ns, input.id) == Some(ReadBackNFT(cs, ns, input.id).value)
      && NFTUpdated(FindContract(contracts, input.id).value, FindNft(nfts, input.id), input, now,
                    ReadBackNFT(cs, ns, input.id).value)
  {
    var cch := ContractChanges(input.name, input.symbol);
    var nch := NftChanges(input.base_uri, input.maximum_supply);
    var cs := WrittenContracts(contracts, input.id, cch, now);
    var ns := WrittenNft(nfts, input.id, nch, now);
    if !cch.IsEmpty() {
      InvariantAfterSetContracts(contracts, erc20s, nfts, contractsNext, erc20Next, nftNext, input.id, cch, now);
    }
    if !nch.IsEmpty() {
      InvariantAfterSetNft(cs, erc20s, nfts, contractsNext, erc20Next, nftNext, input.id, nch, now);
    }
    WrittenContractsLookups(contracts, erc20s, nfts, input.id, cch, now);
    WrittenNftLookups(nfts, input.id, nch, now);
    ReadBackNFTIsGet(cs, erc20s, ns, input.id);
  }

  class Store {
    var contracts: seq<ContractRow>
    var erc20Properties: seq<Erc20Row>
    var nftProperties: seq<NftRow>
    /** The next value of each table's serial sequence. */
    var contractsNextId: int
    var erc20PropertiesNextId: int
    var nftPropertiesNextId: int

    /** The store invariant. */
    ghost predicate Valid()
      reads this
    {
      StoreInvariant(contracts, erc20Properties, nftProperties, contractsNextId, erc20PropertiesNextId, nftPropertiesNextId)
    }

    ghost predicate IsComplete()
      reads this
    {
      Complete(contracts, erc20Properties, nftProperties)
    }

    /** The clock reading `now` is no earlier than anything stored. */
    ghost predicate NotAfter(now: Timestamp)
      reads this
    {
      NoStampAfter(contracts, erc20Properties, nftProperties, now)
    }

    /** An empty database whose sequences start at 1. */
    constructor ()
      ensures Valid() && IsComplete()
      ensures contracts == [] && erc20Properties == [] && nftProperties == []
      ensures contractsNextId == 1 && erc20PropertiesNextId == 1 && nftPropertiesNextId == 1
    {
      contracts, erc20Properties, nftProperties := [], [], [];
      contractsNextId, erc20PropertiesNextId, nftPropertiesNextId := 1, 1, 1;
    }

    /**
     * `createERC20`: insert the contract row tagged ERC20, then its properties row.
     * The two inserts are not one transaction: when the second fails its error is
     * rethrown and the contract row stays, without a properties row. `rejected`
     * names the inserts the database refuses in this call.
     */
    method CreateERC20(input: CreateERC20Input, now: Timestamp, rejected: set<TableName>)
      returns (r: Result<ContractWithProperties, Error>)
      requires Valid() && CreateERC20InputValid(input) && NotAfter(now)
      modifies this
      ensures Valid() && NotAfter(now)
      ensures nftProperties == old(nftProperties) && nftPropertiesNextId == old(nftPropertiesNextId)
      // the first insert fails: nothing is written
      ensures InsertFails(old(contractsNextId), ContractsTable, rejected) ==>
        && r == Err(InsertError(old(contractsNextId), ContractsTable))
        && contracts == old(contracts) && contractsNextId == old(contractsNextId)
        && erc20Properties == old(erc20Properties) && erc20PropertiesNextId == old(erc20PropertiesNextId)
      // the contract row: next serial id, tag ERC20, the input's name and symbol, both timestamps now
      ensures !InsertFails(old(contractsNextId), ContractsTable, rejected) ==>
        && contracts == old(contracts) + [ContractRow(old(contractsNextId), input.name, input.symbol, ERC20, now, now)]
        && contractsNextId == old(contractsNextId) + 1
      // the second insert fails: rethrown, the contract row is left behind
      ensures !InsertFails(old(contractsNextId), ContractsTable, rejected) &&
              InsertFails(old(erc20PropertiesNextId), Erc20PropertiesTable, rejected) ==>
        && r == Err(InsertError(old(erc20PropertiesNextId), Erc20PropertiesTable))
        && erc20Properties == old(erc20Properties) && erc20PropertiesNextId == old(erc20PropertiesNextId)
        && GetContract(contracts, erc20Properties, nftProperties, old(contractsNextId)) ==
           Some(ContractWithProperties(old(contractsNextId), input.name, input.symbol, ERC20, now, now, Null, Null))
      // the properties row points at the new contract and stores the input verbatim
      ensures !InsertFails(old(contractsNextId), ContractsTable, rejected) &&
              !InsertFails(old(erc20PropertiesNextId), Erc20PropertiesTable, rejected) ==>
        && erc20Properties == old(erc20Properties) +
           [Erc20Row(old(erc20PropertiesNextId), old(contractsNextId), input.total_supply, input.decimals, now, now)]
        && erc20PropertiesNextId == old(erc20PropertiesNextId) + 1
        && r.Ok?
      ensures r.Ok? ==>
        // the only contract row and the only ERC20 row of the new id
        && (forall k :: 0 <= k < |old(contracts)| ==> old(contracts)[k].id != r.value.id)
        && (forall k :: 0 <= k < |old(erc20Properties)| ==> old(erc20Properties)[k].contract_id != r.value.id)
        && r.value.contract_type == ERC20 && r.value.name == input.name && r.value.symbol == input.symbol
        && r.value.created_at == now && r.value.updated_at == now
        && r.value.nft_properties == Null
        && r.value.erc20_properties.NonNull?
        && r.value.erc20_properties.value.contract_id == r.value.id
        && r.value.erc20_properties.value.total_supply == input.total_supply
        && r.value.erc20_properties.value.decimals == input.decimals
        && GetContract(contracts, erc20Properties, nftProperties, r.value.id) == Some(r.value)
        && (old(IsComplete()) ==> IsComplete())
      ensures forall id :: TagOf(old(contracts), id).Some? ==> TagOf(contracts, id) == TagOf(old(contracts), id)
    {
      ghost var contracts0, erc20s0 := contracts, erc20Properties;
      if InsertFails(contractsNextId, ContractsTable, rejected) {
        return Err(InsertError(contractsNextId, ContractsTable));
      }
      var contract := ContractRow(contractsNextId, input.name, input.symbol, ERC20, now, now);
      InvariantAfterContractInsert(contracts, erc20Properties, nftProperties,
        contractsNextId, erc20PropertiesNextId, nftPropertiesNextId, contract, now);
      contracts := contracts + [contract];
      contractsNextId := contractsNextId + 1;

      if InsertFails(erc20PropertiesNextId, Erc20PropertiesTable, rejected) {
        return Err(InsertError(erc20PropertiesNextId, Erc20PropertiesTable));
      }
      var properties := Erc20Row(erc20PropertiesNextId, contract.id, input.total_supply, input.decimals, now, now);
      InvariantAfterErc20Insert(contracts, erc20Properties, nftProperties,
        contractsNextId, erc20PropertiesNextId, nftPropertiesNextId, properties, now);
      if old(IsComplete()) {
        CompleteAfterErc20Create(contracts0, erc20s0, nftProperties, contract, properties);
      }
      erc20Properties := erc20Properties + [properties];
      erc20PropertiesNextId := erc20PropertiesNextId + 1;

      r := Ok(ContractWithProperties(contract.id, contract.name, contract.symbol, contract.contract_type,
                                     contract.created_at, contract.updated_at, NonNull(properties), Null));
    }

    /**
     * `createNFT`: insert the contract row tagged NFT, then its properties row, with
     * the same non-transactional failure behaviour as `createERC20`.
     */
    method CreateNFT(input: CreateNFTInput, now: Timestamp, rejected: set<TableName>, ghost isUrl: string -> bool)
      returns (r: Result<ContractWithProperties, Error>)
      requires Valid() && CreateNFTInputValid(input, isUrl) && NotAfter(now)
      modifies this
      ensures Valid() && NotAfter(now)
      ensures erc20Properties == old(erc20Properties) && erc20PropertiesNextId == old(erc20PropertiesNextId)
      ensures InsertFails(old(contractsNextId), ContractsTable, rejected) ==>
        && r == Err(InsertError(old(contractsNextId), ContractsTable))
        && contracts == old(contracts) && contractsNextId == old(contractsNextId)
        && nftProperties == old(nftProperties) && nftPropertiesNextId == old(nftPropertiesNextId)
      ensures !InsertFails(old(contractsNextId), ContractsTable, rejected) ==>
        && contracts == old(contracts) + [ContractRow(old(contractsNextId), input.name, input.symbol, NFT, now, now)]
        && contractsNextId == old(contractsNextId) + 1
      ensures !InsertFails(old(contractsNextId), ContractsTable, rejected) &&
              InsertFails(old(nftPropertiesNextId), NftPropertiesTable, rejected) ==>
        && r == Err(InsertError(old(nftPropertiesNextId), NftPropertiesTable))
        && nftProperties == old(nftProperties) && nftPropertiesNextId == old(nftPropertiesNextId)
        && GetContract(contracts, erc20Properties, nftProperties, old(contractsNextId)) ==
           Some(ContractWithProperties(old(contractsNextId), input.name, input.symbol, NFT, now, now, Null, Null))
      ensures !InsertFails(old(contractsNextId), ContractsTable, rejected) &&
              !InsertFails(old(nftPropertiesNextId), NftPropertiesTable, rejected) ==>
        && nftProperties == old(nftProperties) +
           [NftRow(old(nftPropertiesNextId), old(contractsNextId), input.base_uri, input.maximum_supply, now, now)]
        && nftPropertiesNextId == old(nftPropertiesNextId) + 1
        && r.Ok?
      ensures r.Ok? ==>
        && (forall k :: 0 <= k < |old(contracts)| ==> old(contracts)[k].id != r.value.id)
        && (forall k :: 0 <= k < |old(nftProperties)| ==> old(nftProperties)[k].contract_id != r.value.id)
        && r.value.contract_type == NFT && r.value.name == input.name && r.value.symbol == input.symbol
        && r.value.created_at == now && r.value.updated_at == now
        && r.value.erc20_properties == Null
        && r.value.nft_properties.NonNull?
        && r.value.nft_properties.value.contract_id == r.value.id
        && r.value.nft_properties.value.base_uri == input.base_uri
        && r.value.nft_properties.value.maximum_supply == input.maximum_supply
        && GetContract(contracts, erc20Properties, nftProperties, r.value.id) == Some(r.value)
        && (old(IsComplete()) ==> IsComplete())
      ensures forall id :: TagOf(old(contracts), id).Some? ==> TagOf(contracts, id) == TagOf(old(contracts), id)
    {
      ghost var contracts0, nfts0 := contracts, nftProperties;
      if InsertFails(contractsNextId, ContractsTable, rejected) {
        return Err(InsertError(contractsNextId, ContractsTable));
      }
      var contract := ContractRow(contractsNextId, input.name, input.symbol, NFT, now, now);
      InvariantAfterContractInsert(contracts, erc20Properties, nftProperties,
        contractsNextId, erc20PropertiesNextId, nftPropertiesNextId, contract, now);
      contracts := contracts + [contract];
      contractsNextId := contractsNextId + 1;

      if InsertFails(nftPropertiesNextId, NftPropertiesTable, rejected) {
        return Err(InsertError(nftPropertiesNextId, NftPropertiesTable));
      }
      var properties := NftRow(nftPropertiesNextId, contract.id, input.base_uri, input.maximum_supply, now, now);
      InvariantAfterNftInsert(contracts, erc20Properties, nftProperties,
        contractsNextId, erc20PropertiesNextId, nftPropertiesNextId, properties, now);
      if old(IsComplete()) {
        CompleteAfterNftCreate(contracts0, erc20Properties, nfts0, contract, properties);
      }
      nftProperties := nftProperties + [properties];
      nftPropertiesNextId := nftPropertiesNextId + 1;

      r := Ok(ContractWithProperties(contract.id, contract.name, contract.symbol, contract.contract_type,
                                     contract.created_at, contract.updated_at, Null, NonNull(properties)));
    }

    /** An update's write to `contracts`, which the handler skips when the change set is empty. */
    method WriteContracts(id: int, ch: ContractChanges, now: Timestamp)
      modifies this
      ensures contracts == WrittenContracts(old(contracts), id, ch, now)
      ensures erc20Properties == old(erc20Properties) && nftProperties == old(nftProperties)
      ensures contractsNextId == old(contractsNextId) && erc20PropertiesNextId == old(erc20PropertiesNextId)
      ensures nftPropertiesNextId == old(nftPropertiesNextId)
    {
      if !ch.IsEmpty() {
        contracts := SetContracts(contracts, id, ch, now);
      }
    }

    /** An update's write to `erc20_properties`, skipped when the change set is empty. */
    method WriteErc20(contractId: int, ch: Erc20Changes, now: Timestamp)
      modifies this
      ensures erc20Properties == WrittenErc20(old(erc20Properties), contractId, ch, now)
      ensures contracts == old(contracts) && nftProperties == old(nftProperties)
      ensures contractsNextId == old(contractsNextId) && erc20PropertiesNextId == old(erc20PropertiesNextId)
      ensures nftPropertiesNextId == old(nftPropertiesNextId)
    {
      if !ch.IsEmpty() {
        erc20Properties := SetErc20(erc20Properties, contractId, ch, now);
      }
    }

    /** An update's write to `nft_properties`, skipped when the change set is empty. */
    method WriteNft(contractId: int, ch: NftChanges, now: Timestamp)
      modifies this
      ensures nftProperties == WrittenNft(old(nftProperties), contractId, ch, now)
      ensures contracts == old(contracts) && erc20Properties == old(erc20Properties)
      ensures contractsNextId == old(contractsNextId) && erc20PropertiesNextId == old(erc20PropertiesNextId)
      ensures nftPropertiesNextId == old(nftPropertiesNextId)
    {
      if !ch.IsEmpty() {
        nftProperties := SetNft(nftProperties, contractId, ch, now);
      }
    }

    /**
     * `updateERC20`: the existence and tag checks come before any write; then each
     * table is written only when the input carries one of its fields, and only then
     * gets a new `updated_at`; then the contract is read back.
     */
    method UpdateERC20(input: UpdateERC20Input, now: Timestamp) returns (r: Result<ContractWithProperties, Error>)
      requires Valid() && UpdateERC20InputValid(input) && NotAfter(now)
      modifies this
      ensures Valid() && NotAfter(now)
      ensures old(IsComplete()) ==> IsComplete()
      ensures nftProperties == old(nftProperties)
      ensures contractsNextId == old(contractsNextId) && erc20PropertiesNextId == old(erc20PropertiesNextId)
      ensures nftPropertiesNextId == old(nftPropertiesNextId)
      ensures forall id :: TagOf(contracts, id) == TagOf(old(contracts), id)
      // nothing else changes
      ensures forall id :: id != input.id ==>
        FindContract(contracts, id) == FindContract(old(contracts), id) &&
        FindErc20(erc20Properties, id) == FindErc20(old(erc20Properties), id)
      ensures FindContract(old(contracts), input.id).None? ==>
        r == Err(NotFound(input.id)) && contracts == old(contracts) && erc20Properties == old(erc20Properties)
      ensures TagOf(old(contracts), input.id) == Some(NFT) ==>
        r == Err(NotERC20(input.id)) && contracts == old(contracts) && erc20Properties == old(erc20Properties)
      ensures TagOf(old(contracts), input.id) == Some(ERC20) ==>
        && contracts == WrittenContracts(old(contracts), input.id, ContractChanges(input.name, input.symbol), now)
        && erc20Properties ==
           WrittenErc20(old(erc20Properties), input.id, Erc20Changes(input.total_supply, input.decimals), now)
        && r.Ok?
        && GetContract(contracts, erc20Properties, nftProperties, input.id) == Some(r.value)
        && ERC20Updated(FindContract(old(contracts), input.id).value, FindErc20(old(erc20Properties), input.id),
                        input, now, r.value)
      // an input with only `id` writes nothing and returns the stored contract
      ensures TagOf(old(contracts), input.id) == Some(ERC20) &&
              input.name.None? && input.symbol.None? && input.total_supply.None? && input.decimals.None? ==>
        && contracts == old(contracts) && erc20Properties == old(erc20Properties)
        && r == Ok(GetContract(old(contracts), old(erc20Properties), old(nftProperties), input.id).value)
    {
      var existing := FindContract(contracts, input.id);
      if existing.None? {
        return Err(NotFound(input.id));
      }
      if existing.value.contract_type != ERC20 {
        return Err(NotERC20(input.id));
      }
      UpdateERC20Effect(contracts, erc20Properties, nftProperties,
        contractsNextId, erc20PropertiesNextId, nftPropertiesNextId, input, now);
      WrittenContractsLookups(contracts, erc20Properties, nftProperties, input.id,
        ContractChanges(input.name, input.symbol), now);
      WrittenErc20Lookups(erc20Properties, input.id, Erc20Changes(input.total_supply, input.decimals), now);

      var contractUpdates := ContractChanges(None, None);
      if input.name.Some? {
        contractUpdates := contractUpdates.(name := input.name);
      }
      if input.symbol.Some? {
        contractUpdates := contractUpdates.(symbol := input.symbol);
      }
      WriteContracts(input.id, contractUpdates, now);

      var propertiesUpdates := Erc20Changes(None, None);
      if input.total_supply.Some? {
        propertiesUpdates := propertiesUpdates.(total_supply := input.total_supply);
      }
      if input.decimals.Some? {
        propertiesUpdates := propertiesUpdates.(decimals := input.decimals);
      }
      WriteErc20(input.id, propertiesUpdates, now);

      r := ReadBackERC20(contracts, erc20Properties, input.id);
    }

    /**
     * `updateNFT`: the same order of checks, patches and re-read as `updateERC20`,
     * over `base_uri` and the nullable `maximum_supply`.
     */
    method UpdateNFT(input: UpdateNFTInput, now: Timestamp, ghost isUrl: string -> bool)
      returns (r: Result<ContractWithProperties, Error>)
      requires Valid() && UpdateNFTInputValid(input, isUrl) && NotAfter(now)
      modifies this
      ensures Valid() && NotAfter(now)
      ensures old(IsComplete()) ==> IsComplete()
      ensures erc20Properties == old(erc20Properties)
      ensures contractsNextId == old(contractsNextId) && erc20PropertiesNextId == old(erc20PropertiesNextId)
      ensures nftPropertiesNextId == old(nftPropertiesNextId)
      ensures forall id :: TagOf(contracts, id) == TagOf(old(contracts), id)
      ensures forall id :: id != input.id ==>
        FindContract(contracts, id) == FindContract(old(contracts), id) &&
        FindNft(nftProperties, id) == FindNft(old(nftProperties), id)
      ensures FindContract(old(contracts), input.id).None? ==>
        r == Err(NotFound(input.id)) && contracts == old(contracts) && nftProperties == old(nftProperties)
      ensures TagOf(old(contracts), input.id) == Some(ERC20) ==>
        r == Err(NotNFT(input.id)) && contracts == old(contracts) && nftProperties == old(nftProperties)
      ensures TagOf(old(contracts), input.id) == Some(NFT) ==>
        && contracts == WrittenContracts(old(contracts), input.id, ContractChanges(input.name, input.symbol), now)
        && nftProperties ==
           WrittenNft(old(nftProperties), input.id, NftChanges(input.base_uri, input.maximum_supply), now)
        && r.Ok?
        && GetContract(contracts, erc20Properties, nftProperties, input.id) == Some(r.value)
        && NFTUpdated(FindContract(old(contracts), input.id).value, FindNft(old(nftProperties), input.id),
                      input, now, r.value)
      ensures TagOf(old(contracts), input.id) == Some(NFT) &&
              input.name.None? && input.symbol.None? && input.base_uri.None? && input.maximum_supply.None? ==>
        && contracts == old(contracts) && nftProperties == old(nftProperties)
        && r == Ok(GetContract(old(contracts), old(erc20Properties), old(nftProperties), input.id).value)
    {
      var existing := FindContract(contracts, input.id);
      if existing.None? {
        return Err(NotFound(input.id));
      }
      if existing.value.contract_type != NFT {
        return Err(NotNFT(input.id));
      }
      UpdateNFTEffect(contracts, erc20Properties, nftProperties,
        contractsNextId, erc20PropertiesNextId, nftPropertiesNextId, input, now, isUrl);
      WrittenContractsLookups(contracts, erc20Properties, nftProperties, input.id,
        ContractChanges(input.name, input.symbol), now);
      WrittenNftLookups(nftProperties, input.id, NftChanges(input.base_uri, input.maximum_supply), now);

      var contractUpdates := ContractChanges(None, None);
      if input.name.Some? {
        contractUpdates := contractUpdates.(name := input.name);
      }
      if input.symbol.Some? {
        contractUpdates := contractUpdates.(symbol := input.symbol);
      }
      WriteContracts(input.id, contractUpdates, now);

      var nftUpdates := NftChanges(None, None);
      if input.base_uri.Some? {
        nftUpdates := nftUpdates.(base_uri := input.base_uri);
      }
      if input.maximum_supply.Some? {
        nftUpdates := nftUpdates.(maximum_supply := input.maximum_supply);
      }
      WriteNft(input.id, nftUpdates, now);

      r := ReadBackNFT(contracts, nftProperties, input.id);
    }
  }
}
