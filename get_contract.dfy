/**
 * The read side: `getContract`, a select of one contract left-joined with both
 * side tables, and the list read whose handler is described only by its tests.
 * Reads change nothing: they are functions of the three tables.
 */
module Reads {
  import opened Wrappers
  import opened Tables
  import opened Schema

  /** A left join: no matching row gives a null field. */
  function LeftJoin<T>(o: Option<T>): Nullable<T> {
    match o
    case None => Null
    case Some(v) => NonNull(v)
  }

  /** A contract row with its side rows joined on `contract_id`. */
  function Joined(c: ContractRow, erc20s: seq<Erc20Row>, nfts: seq<NftRow>): ContractWithProperties {
    ContractWithProperties(c.id, c.name, c.symbol, c.contract_type, c.created_at, c.updated_at,
      LeftJoin(FindErc20(erc20s, c.id)), LeftJoin(FindNft(nfts, c.id)))
  }

  /**
   * `getContract`: null for an unknown id rather than an error; otherwise the stored
   * contract columns, and each property field null exactly when its side table has
   * no row for the contract.
   */
  function GetContract(contracts: seq<ContractRow>, erc20s: seq<Erc20Row>, nfts: seq<NftRow>, id: int)
    : (r: Option<ContractWithProperties>)
    ensures r.Some? ==> r.value.id == id
  {
    match FindContract(contracts, id)
    case None => None
    case Some(c) => Some(Joined(c, erc20s, nfts))
  }

  /**
   * What `getContract` returns: nothing exactly when no row has the id; otherwise a
   * stored contract row, and each property field null exactly when its side table has
   * no row for the contract, else a stored row of that contract.
   */
  lemma GetContractSpec(contracts: seq<ContractRow>, erc20s: seq<Erc20Row>, nfts: seq<NftRow>, id: int)
    ensures var r := GetContract(contracts, erc20s, nfts, id);
      && (r.None? <==> forall k :: 0 <= k < |contracts| ==> contracts[k].id != id)
      && (r.Some? ==> r.value.Base() in contracts)
      && (r.Some? ==>
            (r.value.erc20_properties.Null? <==> forall k :: 0 <= k < |erc20s| ==> erc20s[k].contract_id != id))
      && (r.Some? ==>
            (r.value.nft_properties.Null? <==> forall k :: 0 <= k < |nfts| ==> nfts[k].contract_id != id))
      && (r.Some? && r.value.erc20_properties.NonNull? ==>
            r.value.erc20_properties.value in erc20s && r.value.erc20_properties.value.contract_id == id)
      && (r.Some? && r.value.nft_properties.NonNull? ==>
            r.value.nft_properties.value in nfts && r.value.nft_properties.value.contract_id == id)
  {
    FindContractSpec(contracts, id);
    FindErc20Spec(erc20s, id);
    FindNftSpec(nfts, id);
  }

  /**
   * In a consistent store a found contract has at most one non-null property field,
   * and it is the one its tag names.
   */
  lemma GetContractMatchesTag(contracts: seq<ContractRow>, erc20s: seq<Erc20Row>, nfts: seq<NftRow>, id: int)
    requires Consistent(contracts, erc20s, nfts)
    ensures var r := GetContract(contracts, erc20s, nfts, id);
      r.Some? ==>
        && (r.value.contract_type == ERC20 ==> r.value.nft_properties.Null?)
        && (r.value.contract_type == NFT ==> r.value.erc20_properties.Null?)
  {
    FindErc20Spec(erc20s, id);
    FindNftSpec(nfts, id);
  }

  /** In a consistent and complete store exactly one property field of a found contract is set. */
  lemma GetContractOfComplete(contracts: seq<ContractRow>, erc20s: seq<Erc20Row>, nfts: seq<NftRow>, id: int)
    requires Consistent(contracts, erc20s, nfts) && Complete(contracts, erc20s, nfts)
    ensures var r := GetContract(contracts, erc20s, nfts, id);
      r.Some? ==>
        && (r.value.contract_type == ERC20 <==> r.value.erc20_properties.NonNull?)
        && (r.value.contract_type == NFT <==> r.value.nft_properties.NonNull?)
  {
    if FindContract(contracts, id).Some? {
      var c := FindContract(contracts, id).value;
      FindContractSpec(contracts, id);
      var k :| 0 <= k < |contracts| && contracts[k] == c;
      assert HasSideRow(contracts[k], erc20s, nfts);
      GetContractMatchesTag(contracts, erc20s, nfts, id);
    }
  }

  /**
   * The list read. Its handler is not part of this model; this follows what its tests
   * state: every contract appears once, with left-joined property fields. The tests
   * assert no order; this model lists contracts in table order.
   */
  function GetContracts(contracts: seq<ContractRow>, erc20s: seq<Erc20Row>, nfts: seq<NftRow>)
    : (r: seq<ContractWithProperties>)
    ensures |r| == |contracts|
    ensures forall k :: 0 <= k < |contracts| ==>
      r[k].Base() == contracts[k] &&
      r[k].erc20_properties == LeftJoin(FindErc20(erc20s, contracts[k].id)) &&
      r[k].nft_properties == LeftJoin(FindNft(nfts, contracts[k].id))
  {
    if contracts == [] then []
    else [Joined(contracts[0], erc20s, nfts)] + GetContracts(contracts[1..], erc20s, nfts)
  }

  /** With serial ids, each listed element is what `getContract` returns for its id. */
  lemma GetContractsAgreesWithGet(contracts: seq<ContractRow>, erc20s: seq<Erc20Row>, nfts: seq<NftRow>, next: int, k: int)
    requires ContractIdsSerial(contracts, next)
    requires 0 <= k < |contracts|
    ensures GetContract(contracts, erc20s, nfts, contracts[k].id) == Some(GetContracts(contracts, erc20s, nfts)[k])
  {
    FindContractAt(contracts, next, k);
  }
}
