/**
 * The three tables of the store (`contracts`, `erc20_properties`, `nft_properties`),
 * their row shapes, the lookups the handlers run against them, and the store invariant.
 *
 * A table is a sequence of rows in insertion order. A lookup returns the first row that
 * matches, which is how the handlers read `results[0]` of a select.
 */
module Tables {
  import opened Wrappers

  /** The largest value a Postgres `serial` column's sequence hands out. */
  const MaxSerial: int := 2147483647

  /** The `contract_type` enum: exactly one of two tags. */
  datatype ContractType = ERC20 | NFT

  /** A column or result field that may hold SQL/JSON `null`. */
  datatype Nullable<T> = Null | NonNull(value: T)

  /** Timestamps are readings of an injected clock. */
  type Timestamp = int

  datatype ContractRow = ContractRow(
    id: int,
    name: string,
    symbol: string,
    contract_type: ContractType,
    created_at: Timestamp,
    updated_at: Timestamp)

  datatype Erc20Row = Erc20Row(
    id: int,
    contract_id: int,
    total_supply: string,
    decimals: int,
    created_at: Timestamp,
    updated_at: Timestamp)

  /** `maximum_supply` is the only nullable data column of the three tables. */
  datatype NftRow = NftRow(
    id: int,
    contract_id: int,
    base_uri: string,
    maximum_supply: Nullable<string>,
    created_at: Timestamp,
    updated_at: Timestamp)

  // ---------------------------------------------------------------------------
  // Lookups: `select ... where contracts.id = id` and
  // `select ... where <side>.contract_id = id`, first matching row.
  // ---------------------------------------------------------------------------

  function FindContract(rows: seq<ContractRow>, id: int): (r: Option<ContractRow>)
    ensures r.Some? ==> r.value.id == id
  {
    if rows == [] then None
    else if rows[0].id == id then Some(rows[0])
    else FindContract(rows[1..], id)
  }

  /** The lookup finds a stored row, and finds nothing exactly when no row matches. */
  lemma {:induction false} FindContractSpec(rows: seq<ContractRow>, id: int)
    ensures FindContract(rows, id).Some? ==> FindContract(rows, id).value in rows
    ensures FindContract(rows, id).None? <==> forall k :: 0 <= k < |rows| ==> rows[k].id != id
  {
    if rows != [] {
      FindContractSpec(rows[1..], id);
    }
  }

  function FindErc20(rows: seq<Erc20Row>, contractId: int): (r: Option<Erc20Row>)
    ensures r.Some? ==> r.value.contract_id == contractId
  {
    if rows == [] then None
    else if rows[0].contract_id == contractId then Some(rows[0])
    else FindErc20(rows[1..], contractId)
  }

  /** The lookup finds a stored row, and finds nothing exactly when no row matches. */
  lemma {:induction false} FindErc20Spec(rows: seq<Erc20Row>, contractId: int)
    ensures FindErc20(rows, contractId).Some? ==> FindErc20(rows, contractId).value in rows
    ensures FindErc20(rows, contractId).None? <==> forall k :: 0 <= k < |rows| ==> rows[k].contract_id != contractId
  {
    if rows != [] {
      FindErc20Spec(rows[1..], contractId);
    }
  }

  function FindNft(rows: seq<NftRow>, contractId: int): (r: Option<NftRow>)
    ensures r.Some? ==> r.value.contract_id == contractId
  {
    if rows == [] then None
    else if rows[0].contract_id == contractId then Some(rows[0])
    else FindNft(rows[1..], contractId)
  }

  /** The lookup finds a stored row, and finds nothing exactly when no row matches. */
  lemma {:induction false} FindNftSpec(rows: seq<NftRow>, contractId: int)
    ensures FindNft(rows, contractId).Some? ==> FindNft(rows, contractId).value in rows
    ensures FindNft(rows, contractId).None? <==> forall k :: 0 <= k < |rows| ==> rows[k].contract_id != contractId
  {
    if rows != [] {
      FindNftSpec(rows[1..], contractId);
    }
  }

  /** The tag of the contract with this id, if there is one. */
  function TagOf(contracts: seq<ContractRow>, id: int): Option<ContractType> {
    match FindContract(contracts, id)
    case None => None
    case Some(c) => Some(c.contract_type)
  }

  // ---------------------------------------------------------------------------
  // Serial ids: each table's ids are handed out in ascending order from 1 by a
  // sequence whose next value is `next`.
  // ---------------------------------------------------------------------------

  ghost predicate ContractIdsSerial(rows: seq<ContractRow>, next: int) {
    && (forall k :: 0 <= k < |rows| ==> 1 <= rows[k].id < next)
    && (forall j, k :: 0 <= j < k < |rows| ==> rows[j].id < rows[k].id)
  }

  ghost predicate Erc20IdsSerial(rows: seq<Erc20Row>, next: int) {
    && (forall k :: 0 <= k < |rows| ==> 1 <= rows[k].id < next)
    && (forall j, k :: 0 <= j < k < |rows| ==> rows[j].id < rows[k].id)
  }

  ghost predicate NftIdsSerial(rows: seq<NftRow>, next: int) {
    && (forall k :: 0 <= k < |rows| ==> 1 <= rows[k].id < next)
    && (forall j, k :: 0 <= j < k < |rows| ==> rows[j].id < rows[k].id)
  }

  // ---------------------------------------------------------------------------
  // The store invariant. Every side row points at an existing contract whose tag
  // matches the side table, and no contract has two rows in the same side table.
  // Together: a contract has at most one side row, and it matches its tag.
  // ---------------------------------------------------------------------------

  ghost predicate Consistent(contracts: seq<ContractRow>, erc20s: seq<Erc20Row>, nfts: seq<NftRow>) {
    && (forall k :: 0 <= k < |erc20s| ==> TagOf(contracts, erc20s[k].contract_id) == Some(ERC20))
    && (forall k :: 0 <= k < |nfts| ==> TagOf(contracts, nfts[k].contract_id) == Some(NFT))
    && (forall j, k :: 0 <= j < k < |erc20s| ==> erc20s[j].contract_id != erc20s[k].contract_id)
    && (forall j, k :: 0 <= j < k < |nfts| ==> nfts[j].contract_id != nfts[k].contract_id)
  }

  /** No contract is left without its side row (what a run without failed creates keeps). */
  ghost predicate Complete(contracts: seq<ContractRow>, erc20s: seq<Erc20Row>, nfts: seq<NftRow>) {
    forall k :: 0 <= k < |contracts| ==> HasSideRow(contracts[k], erc20s, nfts)
  }

  /** The contract has a row in the side table its tag names. */
  ghost predicate HasSideRow(c: ContractRow, erc20s: seq<Erc20Row>, nfts: seq<NftRow>) {
    match c.contract_type
    case ERC20 => FindErc20(erc20s, c.id).Some?
    case NFT => FindNft(nfts, c.id).Some?
  }

  // ---------------------------------------------------------------------------
  // Lookups after an insert (a row appended at the end of its table).
  // ---------------------------------------------------------------------------

  lemma {:induction false} FindContractAppend(rows: seq<ContractRow>, row: ContractRow, id: int)
    ensures FindContract(rows + [row], id) ==
      if FindContract(rows, id).Some? then FindContract(rows, id)
      else if row.id == id then Some(row)
      else None
  {
    if rows != [] {
      assert (rows + [row])[1..] == rows[1..] + [row];
      FindContractAppend(rows[1..], row, id);
    }
  }

  lemma {:induction false} FindErc20Append(rows: seq<Erc20Row>, row: Erc20Row, contractId: int)
    ensures FindErc20(rows + [row], contractId) ==
      if FindErc20(rows, contractId).Some? then FindErc20(rows, contractId)
      else if row.contract_id == contractId then Some(row)
      else None
  {
    if rows != [] {
      assert (rows + [row])[1..] == rows[1..] + [row];
      FindErc20Append(rows[1..], row, contractId);
    }
  }

  lemma {:induction false} FindNftAppend(rows: seq<NftRow>, row: NftRow, contractId: int)
    ensures FindNft(rows + [row], contractId) ==
      if FindNft(rows, contractId).Some? then FindNft(rows, contractId)
      else if row.contract_id == contractId then Some(row)
      else None
  {
    if rows != [] {
      assert (rows + [row])[1..] == rows[1..] + [row];
      FindNftAppend(rows[1..], row, contractId);
    }
  }

  /** With ascending ids, a lookup by id finds exactly the row that carries it. */
  lemma {:induction false} FindContractAt(rows: seq<ContractRow>, next: int, k: int)
    requires ContractIdsSerial(rows, next)
    requires 0 <= k < |rows|
    ensures FindContract(rows, rows[k].id) == Some(rows[k])
  {
    if k > 0 {
      assert rows[0].id < rows[k].id;
      FindContractAt(rows[1..], next, k - 1);
    }
  }

  /** With at most one row per contract, a side lookup finds exactly that row. */
  lemma {:induction false} FindErc20At(rows: seq<Erc20Row>, k: int)
    requires forall i, j :: 0 <= i < j < |rows| ==> rows[i].contract_id != rows[j].contract_id
    requires 0 <= k < |rows|
    ensures FindErc20(rows, rows[k].contract_id) == Some(rows[k])
  {
    if k > 0 {
      assert rows[0].contract_id != rows[k].contract_id;
      FindErc20At(rows[1..], k - 1);
    }
  }

  lemma {:induction false} FindNftAt(rows: seq<NftRow>, k: int)
    requires forall i, j :: 0 <= i < j < |rows| ==> rows[i].contract_id != rows[j].contract_id
    requires 0 <= k < |rows|
    ensures FindNft(rows, rows[k].contract_id) == Some(rows[k])
  {
    if k > 0 {
      assert rows[0].contract_id != rows[k].contract_id;
      FindNftAt(rows[1..], k - 1);
    }
  }

  // ---------------------------------------------------------------------------
  // The invariant across the inserts the create handlers issue.
  // ---------------------------------------------------------------------------

  /** Inserting a contract row under a fresh id keeps the store consistent. */
  lemma ConsistentAfterContractInsert(contracts: seq<ContractRow>, erc20s: seq<Erc20Row>, nfts: seq<NftRow>, row: ContractRow)
    requires Consistent(contracts, erc20s, nfts)
    requires FindContract(contracts, row.id).None?
    ensures Consistent(contracts + [row], erc20s, nfts)
    ensures forall id :: TagOf(contracts, id).Some? ==> TagOf(contracts + [row], id) == TagOf(contracts, id)
  {
    forall id | TagOf(contracts, id).Some?
      ensures TagOf(contracts + [row], id) == TagOf(contracts, id)
    {
      FindContractAppend(contracts, row, id);
    }
  }

  /** Inserting the first ERC20 row of an existing ERC20 contract keeps the store consistent. */
  lemma ConsistentAfterErc20Insert(contracts: seq<ContractRow>, erc20s: seq<Erc20Row>, nfts: seq<NftRow>, row: Erc20Row)
    requires Consistent(contracts, erc20s, nfts)
    requires TagOf(contracts, row.contract_id) == Some(ERC20)
    requires FindErc20(erc20s, row.contract_id).None?
    ensures Consistent(contracts, erc20s + [row], nfts)
  {
    FindErc20Spec(erc20s, row.contract_id);
    var e := erc20s + [row];
    forall k | 0 <= k < |e| ensures TagOf(contracts, e[k].contract_id) == Some(ERC20) {
      if k < |erc20s| { assert e[k] == erc20s[k]; }
    }
    forall j, k | 0 <= j < k < |e| ensures e[j].contract_id != e[k].contract_id {
      assert e[j] == erc20s[j];
      if k < |erc20s| { assert e[k] == erc20s[k]; }
    }
  }

  /** Inserting the first NFT row of an existing NFT contract keeps the store consistent. */
  lemma ConsistentAfterNftInsert(contracts: seq<ContractRow>, erc20s: seq<Erc20Row>, nfts: seq<NftRow>, row: NftRow)
    requires Consistent(contracts, erc20s, nfts)
    requires TagOf(contracts, row.contract_id) == Some(NFT)
    requires FindNft(nfts, row.contract_id).None?
    ensures Consistent(contracts, erc20s, nfts + [row])
  {
    FindNftSpec(nfts, row.contract_id);
    var n := nfts + [row];
    forall k | 0 <= k < |n| ensures TagOf(contracts, n[k].contract_id) == Some(NFT) {
      if k < |nfts| { assert n[k] == nfts[k]; }
    }
    forall j, k | 0 <= j < k < |n| ensures n[j].contract_id != n[k].contract_id {
      assert n[j] == nfts[j];
      if k < |nfts| { assert n[k] == nfts[k]; }
    }
  }

  /** A create whose two inserts both succeed leaves a complete store complete. */
  lemma CompleteAfterErc20Create(contracts: seq<ContractRow>, erc20s: seq<Erc20Row>, nfts: seq<NftRow>, c: ContractRow, p: Erc20Row)
    requires Complete(contracts, erc20s, nfts)
    requires c.contract_type == ERC20 && p.contract_id == c.id
    ensures Complete(contracts + [c], erc20s + [p], nfts)
  {
    var cs := contracts + [c];
    forall k | 0 <= k < |cs| && cs[k].contract_type == ERC20
      ensures FindErc20(erc20s + [p], cs[k].id).Some?
    {
      FindErc20Append(erc20s, p, cs[k].id);
      if k < |contracts| { assert cs[k] == contracts[k]; }
    }
  }

  lemma CompleteAfterNftCreate(contracts: seq<ContractRow>, erc20s: seq<Erc20Row>, nfts: seq<NftRow>, c: ContractRow, p: NftRow)
    requires Complete(contracts, erc20s, nfts)
    requires c.contract_type == NFT && p.contract_id == c.id
    ensures Complete(contracts + [c], erc20s, nfts + [p])
  {
    var cs := contracts + [c];
    forall k | 0 <= k < |cs| && cs[k].contract_type == NFT
      ensures FindNft(nfts + [p], cs[k].id).Some?
    {
      FindNftAppend(nfts, p, cs[k].id);
      if k < |contracts| { assert cs[k] == contracts[k]; }
    }
  }
}
