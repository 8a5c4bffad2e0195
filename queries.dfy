/**
 * The `update ... set ... where ...` statements the update handlers issue, as
 * functions from a table to the table after the statement, and what they do to
 * the lookups and to the store invariant.
 *
 * A change set holds the fields the handler found present in its input; when the
 * handler writes it, the statement also sets `updated_at` to the clock reading.
 */
module Queries {
  import opened Wrappers
  import opened Tables

  /** The `contractUpdates` object: `name` and `symbol` when present. */
  datatype ContractChanges = ContractChanges(name: Option<string>, symbol: Option<string>) {
    /** `Object.keys(contractUpdates).length === 0` */
    predicate IsEmpty() { name.None? && symbol.None? }
  }

  /** The `propertiesUpdates` object of the ERC20 update. */
  datatype Erc20Changes = Erc20Changes(total_supply: Option<string>, decimals: Option<int>) {
    predicate IsEmpty() { total_supply.None? && decimals.None? }
  }

  /**
   * The `nftUpdates` object. A present `maximum_supply` may be `Null`: the column
   * is then set to null, which is different from leaving it alone.
   */
  datatype NftChanges = NftChanges(base_uri: Option<string>, maximum_supply: Option<Nullable<string>>) {
    predicate IsEmpty() { base_uri.None? && maximum_supply.None? }
  }

  function PatchContract(row: ContractRow, ch: ContractChanges, now: Timestamp): ContractRow {
    row.(name := ch.name.GetOr(row.name), symbol := ch.symbol.GetOr(row.symbol), updated_at := now)
  }

  function PatchErc20(row: Erc20Row, ch: Erc20Changes, now: Timestamp): Erc20Row {
    row.(total_supply := ch.total_supply.GetOr(row.total_supply),
         decimals := ch.decimals.GetOr(row.decimals),
         updated_at := now)
  }

  function PatchNft(row: NftRow, ch: NftChanges, now: Timestamp): NftRow {
    row.(base_uri := ch.base_uri.GetOr(row.base_uri),
         maximum_supply := ch.maximum_supply.GetOr(row.maximum_supply),
         updated_at := now)
  }

  /** `update contracts set ... where id = id`: every row with that id takes the change set, the others stay. */
  function SetContracts(rows: seq<ContractRow>, id: int, ch: ContractChanges, now: Timestamp): (r: seq<ContractRow>)
    ensures |r| == |rows|
    ensures forall k :: 0 <= k < |rows| ==>
      r[k] == if rows[k].id == id then PatchContract(rows[k], ch, now) else rows[k]
  {
    if rows == [] then []
    else [if rows[0].id == id then PatchContract(rows[0], ch, now) else rows[0]] +
         SetContracts(rows[1..], id, ch, now)
  }

  /** `update erc20_properties set ... where contract_id = id`: every row of that contract. */
  function SetErc20(rows: seq<Erc20Row>, contractId: int, ch: Erc20Changes, now: Timestamp): (r: seq<Erc20Row>)
    ensures |r| == |rows|
    ensures forall k :: 0 <= k < |rows| ==>
      r[k] == if rows[k].contract_id == contractId then PatchErc20(rows[k], ch, now) else rows[k]
  {
    if rows == [] then []
    else [if rows[0].contract_id == contractId then PatchErc20(rows[0], ch, now) else rows[0]] +
         SetErc20(rows[1..], contractId, ch, now)
  }

  /** `update nft_properties set ... where contract_id = id`. */
  function SetNft(rows: seq<NftRow>, contractId: int, ch: NftChanges, now: Timestamp): (r: seq<NftRow>)
    ensures |r| == |rows|
    ensures forall k :: 0 <= k < |rows| ==>
      r[k] == if rows[k].contract_id == contractId then PatchNft(rows[k], ch, now) else rows[k]
  {
    if rows == [] then []
    else [if rows[0].contract_id == contractId then PatchNft(rows[0], ch, now) else rows[0]] +
         SetNft(rows[1..], contractId, ch, now)
  }

  // ---------------------------------------------------------------------------
  // Lookups after an update: the updated contract reads back patched, every
  // other lookup reads back as before.
  // ---------------------------------------------------------------------------

  lemma {:induction false} FindContractAfterSet(rows: seq<ContractRow>, id: int, ch: ContractChanges, now: Timestamp, k: int)
    ensures k != id ==> FindContract(SetContracts(rows, id, ch, now), k) == FindContract(rows, k)
    ensures FindContract(rows, id).None? ==> FindContract(SetContracts(rows, id, ch, now), id).None?
    ensures FindContract(rows, id).Some? ==>
      FindContract(SetContracts(rows, id, ch, now), id) == Some(PatchContract(FindContract(rows, id).value, ch, now))
  {
    if rows != [] {
      var r := SetContracts(rows, id, ch, now);
      assert r[1..] == SetContracts(rows[1..], id, ch, now);
      FindContractAfterSet(rows[1..], id, ch, now, k);
    }
  }

  lemma {:induction false} FindErc20AfterSet(rows: seq<Erc20Row>, contractId: int, ch: Erc20Changes, now: Timestamp, k: int)
    ensures k != contractId ==> FindErc20(SetErc20(rows, contractId, ch, now), k) == FindErc20(rows, k)
    ensures FindErc20(rows, contractId).None? ==> FindErc20(SetErc20(rows, contractId, ch, now), contractId).None?
    ensures FindErc20(rows, contractId).Some? ==>
      FindErc20(SetErc20(rows, contractId, ch, now), contractId) == Some(PatchErc20(FindErc20(rows, contractId).value, ch, now))
  {
    if rows != [] {
      var r := SetErc20(rows, contractId, ch, now);
      assert r[1..] == SetErc20(rows[1..], contractId, ch, now);
      FindErc20AfterSet(rows[1..], contractId, ch, now, k);
    }
  }

  lemma {:induction false} FindNftAfterSet(rows: seq<NftRow>, contractId: int, ch: NftChanges, now: Timestamp, k: int)
    ensures k != contractId ==> FindNft(SetNft(rows, contractId, ch, now), k) == FindNft(rows, k)
    ensures FindNft(rows, contractId).None? ==> FindNft(SetNft(rows, contractId, ch, now), contractId).None?
    ensures FindNft(rows, contractId).Some? ==>
      FindNft(SetNft(rows, contractId, ch, now), contractId) == Some(PatchNft(FindNft(rows, contractId).value, ch, now))
  {
    if rows != [] {
      var r := SetNft(rows, contractId, ch, now);
      assert r[1..] == SetNft(rows[1..], contractId, ch, now);
      FindNftAfterSet(rows[1..], contractId, ch, now, k);
    }
  }

  // ---------------------------------------------------------------------------
  // Updates keep the invariant: they never touch an id, a `contract_id` or a tag.
  // ---------------------------------------------------------------------------

  /** No update re-tags a contract; the invariant and completeness survive it. */
  lemma ConsistentAfterSetContracts(contracts: seq<ContractRow>, erc20s: seq<Erc20Row>, nfts: seq<NftRow>,
                                    id: int, ch: ContractChanges, now: Timestamp)
    requires Consistent(contracts, erc20s, nfts)
    ensures forall x :: TagOf(SetContracts(contracts, id, ch, now), x) == TagOf(contracts, x)
    ensures Consistent(SetContracts(contracts, id, ch, now), erc20s, nfts)
    ensures Complete(contracts, erc20s, nfts) ==> Complete(SetContracts(contracts, id, ch, now), erc20s, nfts)
  {
    var after := SetContracts(contracts, id, ch, now);
    forall x ensures TagOf(after, x) == TagOf(contracts, x) {
      FindContractAfterSet(contracts, id, ch, now, x);
    }
    if Complete(contracts, erc20s, nfts) {
      forall k | 0 <= k < |after| ensures HasSideRow(after[k], erc20s, nfts) {
        assert HasSideRow(contracts[k], erc20s, nfts);
      }
    }
  }

  lemma ConsistentAfterSetErc20(contracts: seq<ContractRow>, erc20s: seq<Erc20Row>, nfts: seq<NftRow>,
                                contractId: int, ch: Erc20Changes, now: Timestamp)
    requires Consistent(contracts, erc20s, nfts)
    ensures Consistent(contracts, SetErc20(erc20s, contractId, ch, now), nfts)
    ensures Complete(contracts, erc20s, nfts) ==> Complete(contracts, SetErc20(erc20s, contractId, ch, now), nfts)
  {
    var after := SetErc20(erc20s, contractId, ch, now);
    if Complete(contracts, erc20s, nfts) {
      forall k | 0 <= k < |contracts| ensures HasSideRow(contracts[k], after, nfts) {
        FindErc20AfterSet(erc20s, contractId, ch, now, contracts[k].id);
        assert HasSideRow(contracts[k], erc20s, nfts);
      }
    }
  }

  lemma ConsistentAfterSetNft(contracts: seq<ContractRow>, erc20s: seq<Erc20Row>, nfts: seq<NftRow>,
                              contractId: int, ch: NftChanges, now: Timestamp)
    requires Consistent(contracts, erc20s, nfts)
    ensures Consistent(contracts, erc20s, SetNft(nfts, contractId, ch, now))
    ensures Complete(contracts, erc20s, nfts) ==> Complete(contracts, erc20s, SetNft(nfts, contractId, ch, now))
  {
    var after := SetNft(nfts, contractId, ch, now);
    if Complete(contracts, erc20s, nfts) {
      forall k | 0 <= k < |contracts| ensures HasSideRow(contracts[k], erc20s, after) {
        FindNftAfterSet(nfts, contractId, ch, now, contracts[k].id);
        assert HasSideRow(contracts[k], erc20s, nfts);
      }
    }
  }

  /**
   * Setting `maximum_supply` to a digit string and then to null leaves it null: the
   * later explicit null is written, not skipped, and a later update that leaves
   * `maximum_supply` absent keeps it, whatever it does to `base_uri`.
   */
  lemma {:induction false} MaximumSupplyNullSticks(rows: seq<NftRow>, contractId: int, supply: string,
                                                   b: Option<string>, t1: Timestamp, t2: Timestamp, t3: Timestamp)
    requires FindNft(rows, contractId).Some?
    ensures
      var once := SetNft(rows, contractId, NftChanges(None, Some(NonNull(supply))), t1);
      var twice := SetNft(once, contractId, NftChanges(None, Some(Null)), t2);
      FindNft(twice, contractId).Some? && FindNft(twice, contractId).value.maximum_supply == Null &&
      var thrice := SetNft(twice, contractId, NftChanges(b, None), t3);
      FindNft(thrice, contractId).Some? && FindNft(thrice, contractId).value.maximum_supply == Null
  {
    var once := SetNft(rows, contractId, NftChanges(None, Some(NonNull(supply))), t1);
    FindNftAfterSet(rows, contractId, NftChanges(None, Some(NonNull(supply))), t1, contractId);
    var twice := SetNft(once, contractId, NftChanges(None, Some(Null)), t2);
    FindNftAfterSet(once, contractId, NftChanges(None, Some(Null)), t2, contractId);
    FindNftAfterSet(twice, contractId, NftChanges(b, None), t3, contractId);
  }
}
