# Token manager store, modelled in Dafny

The server of the token manager keeps "contracts" of two kinds, ERC20 tokens and
NFT collections. Each contract has one row in the `contracts` table, holding the
common columns: name, symbol, type tag and both timestamps. Its type-specific
columns live in one of two side tables, `erc20_properties` or `nft_properties`,
whose rows point back at the contract through `contract_id`.

This model covers:

- the input schemas and what they accept;
- the three tables and the store invariant;
- the two create handlers, which run two successive inserts;
- the two update handlers, which run guards, then conditional partial patches,
  then a re-read;
- the `getContract` left-join read.

The files are:

- `wrappers.dfy` (module `Wrappers`): `Option` and `Result`.
- `db_schema.dfy` (module `Tables`): row datatypes, the lookups by id and by
  `contract_id`, serial ids, the consistency invariant (each side row points at
  a contract with the matching tag, and there is at most one side row per
  contract), and what inserts do to all of these.
- `schema.dfy` (module `Schema`): the field constraints, the four
  input schemas as validity predicates, the issue lists a failed parse reports,
  and the combined `ContractWithProperties` view.
- `queries.dfy` (module `Queries`): the change sets the update handlers build
  (`contractUpdates`, `propertiesUpdates`, `nftUpdates`), and each
  `update ... set ... where` statement as a function from a table to the table
  after it.
- `get_contract.dfy` (module `Reads`): `getContract`, and the list read as its
  tests describe it.
- `store.dfy` (module `Store`): the class `Store`, which holds the three tables
  and the next value of each serial sequence. Its methods `CreateERC20`,
  `CreateNFT`, `UpdateERC20` and `UpdateNFT` change those fields in place. The
  module also holds the value-level lemmas that the methods' contracts rest on.

Every handler takes its clock reading as a parameter `now`. It stands for
`new Date()` and for the timestamp columns' `defaultNow()`. The precondition
`NotAfter(now)` says the clock never runs backwards: no stored timestamp is
later than `now`. The handlers receive input that has already passed its schema,
because the router validates at the boundary. So each method requires the
matching `...InputValid` predicate. `Schema` separately models what validation
reports when input is rejected.

An insert fails in two ways. Its serial sequence may be past 2147483647, the
largest value a Postgres `serial` column hands out. Or the database may refuse
the row. The create handlers take the database's answer as the parameter
`rejected`, the set of tables whose insert it refuses in this call. The code has
no transaction around its two inserts. So when the properties insert fails, the
contract row stays behind, and the error is rethrown. A refused properties insert
reaches this state from any store, including a fresh one. The handlers always
advance the contracts sequence at least as far as both properties sequences
together, so in a store they alone built, the properties sequence runs out only
after the contracts sequence has.

Where the system's documented design and its code disagree, the model follows
the code:

- Creates are not atomic. A failed second insert leaves a contract without a
  side row, and `getContract` then shows both property fields as null.
  `CreateERC20`, `CreateNFT` and `Reads.GetContractSpec` state this outcome.
  "Exactly one property field is set" holds only in a store with no orphan
  contract row (`Reads.GetContractOfComplete`).
- Each update handler refreshes a table's `updated_at` only when the input
  carries at least one field of that table. A change to the side table does not
  refresh the contract row, nor the other way round. Both handlers do this the
  same way.
- A present field counts as a change even when its value equals the stored
  one. The timestamp then moves.

## Model

| member | source | states |
|---|---|---|
| Schema.Utf16Length | server/src/schema.ts:60-61 | a string's length as zod measures it, in UTF-16 code units: at least its character count and at most twice it, and zero exactly for the empty string |
| Schema.Utf16LengthOfBmp | server/src/schema.ts:60-61 | for a string with no character above U+FFFF the code-unit length is the character count |
| Schema.AstralSymbolTooBig | server/src/schema.ts:61 | six copies of U+1D538 are six characters but twelve code units, so the symbol schema reports exactly one `too_big` issue for them |
| Schema.NameIssuesExact | server/src/schema.ts:60 | the name check reports an issue exactly when the name is empty, and then only for `name` |
| Schema.SymbolIssuesExact | server/src/schema.ts:61 | the symbol check reports an issue exactly when the symbol has fewer than 1 or more than 10 UTF-16 code units, and then only for `symbol` |
| Schema.DigitsIssuesExact | server/src/schema.ts:62 | the `/^\d+$/` check reports an issue exactly when the string is not a non-empty run of ASCII digits, and then only for its own field |
| Schema.DecimalsIssuesExact | server/src/schema.ts:63 | the decimals check reports an issue exactly when decimals lie outside 0..18, and then only for `decimals` |
| Schema.UrlIssuesExact | server/src/schema.ts:71 | the URL check reports an issue exactly when the string is not a URL, and then only for `base_uri` |
| Schema.MaxSupplyIssuesExact | server/src/schema.ts:72 | the nullable maximum_supply passes `null` unchecked and reports an issue exactly for a non-digit string |
| Schema.OptionalIssuesExact | server/src/schema.ts:80-83 | an `.optional()` field is checked only when present: absent, it reports nothing; present, it reports exactly what the field's own check reports |
| Schema.CreateERC20IssuesExact | server/src/schema.ts:59-64 | the create-ERC20 schema reports no issue exactly when name is non-empty, symbol has 1..10 UTF-16 code units, total_supply is a digit string and decimals lie in 0..18; the fields it reports are exactly the ones that break their rule |
| Schema.CreateNFTIssuesExact | server/src/schema.ts:68-73 | the create-NFT schema passes exactly when name and symbol obey their length rules (in UTF-16 code units), base_uri is a URL, and maximum_supply is null or a digit string; the reported fields are exactly the failing ones |
| Schema.UpdateERC20IssuesExact | server/src/schema.ts:78-84 | on update only `id` is required; an absent field is never reported, a present one obeys its create rule, and the reported fields are exactly the failing present ones |
| Schema.UpdateNFTIssuesExact | server/src/schema.ts:88-94 | the same for update-NFT, where maximum_supply may be absent, explicitly null, or a digit string |
| Tables.FindContractSpec | server/src/db/schema.ts:9-16 | a lookup by id returns a stored row, and returns nothing exactly when no row carries the id |
| Tables.FindErc20Spec | server/src/db/schema.ts:19-26 | a lookup by `contract_id` in erc20_properties returns a stored row, and nothing exactly when no row points at that contract |
| Tables.FindNftSpec | server/src/db/schema.ts:29-36 | the same for nft_properties |
| Tables.FindContractAppend | server/src/db/schema.ts:9-10 | after an insert, a lookup finds what it found before, or the new row if it is the first with that id |
| Tables.FindErc20Append | server/src/db/schema.ts:19-21 | the same for an ERC20 properties insert |
| Tables.FindNftAppend | server/src/db/schema.ts:29-31 | the same for an NFT properties insert |
| Tables.FindContractAt | server/src/db/schema.ts:10 | with serial (strictly ascending) ids, the lookup by a row's id returns that row |
| Tables.FindErc20At | server/src/db/schema.ts:39-43 | with at most one ERC20 row per contract, the lookup by a row's `contract_id` returns that row |
| Tables.FindNftAt | server/src/db/schema.ts:44-47 | with at most one NFT row per contract, the lookup by a row's `contract_id` returns that row |
| Tables.ConsistentAfterContractInsert | server/src/db/schema.ts:9-16 | inserting a contract row under an unused id keeps every side row pointing at a contract of its own tag, and re-tags no existing contract |
| Tables.ConsistentAfterErc20Insert | server/src/db/schema.ts:21 | inserting the first ERC20 row of an ERC20 contract keeps the store consistent |
| Tables.ConsistentAfterNftInsert | server/src/db/schema.ts:31 | inserting the first NFT row of an NFT contract keeps the store consistent |
| Tables.CompleteAfterErc20Create | server/src/handlers/create_erc20.ts:9-28 | when both inserts succeed, a store where every contract has its side row keeps that property |
| Tables.CompleteAfterNftCreate | server/src/handlers/create_nft.ts:9-28 | the same for an NFT create |
| Queries.SetContracts | server/src/handlers/update_erc20.ts:32-38 | the contract update keeps the table's length; every row with the id takes the present name and symbol and `updated_at = now`, and every other row is untouched |
| Queries.SetErc20 | server/src/handlers/update_erc20.ts:49-55 | every ERC20 row of the contract takes the present total_supply and decimals and `updated_at = now`; other rows are untouched |
| Queries.SetNft | server/src/handlers/update_nft.ts:51-59 | every NFT row of the contract takes the present base_uri and maximum_supply (an explicit null included) and `updated_at = now`; other rows are untouched |
| Queries.FindContractAfterSet | server/src/handlers/update_erc20.ts:34-37 | after the contract update, the updated contract reads back patched and every other id reads back as before |
| Queries.FindErc20AfterSet | server/src/handlers/update_erc20.ts:51-54 | after the ERC20 update, the contract's row reads back patched (or is still missing) and other contracts read back as before |
| Queries.FindNftAfterSet | server/src/handlers/update_nft.ts:52-58 | the same for the NFT update |
| Queries.ConsistentAfterSetContracts | server/src/handlers/update_erc20.ts:24-38 | a contract update never re-tags a contract; it keeps consistency and completeness |
| Queries.ConsistentAfterSetErc20 | server/src/handlers/update_erc20.ts:41-55 | an ERC20 update keeps consistency and completeness |
| Queries.ConsistentAfterSetNft | server/src/handlers/update_nft.ts:43-59 | an NFT update keeps consistency and completeness |
| Queries.MaximumSupplyNullSticks | server/src/handlers/update_nft.ts:47-49 | setting maximum_supply to a number and then to an explicit null leaves it null, and a later update without the field keeps it null, whatever base_uri it carries |
| Reads.GetContractSpec | server/src/handlers/get_contract.ts:10-47 | `getContract` returns nothing exactly for an unknown id; otherwise the stored contract columns, each property field null exactly when its side table has no row for the contract, and otherwise a stored row of that contract |
| Reads.GetContractMatchesTag | server/src/handlers/get_contract.ts:32-47 | in a consistent store, an ERC20 contract's nft_properties is null and an NFT contract's erc20_properties is null |
| Reads.GetContractOfComplete | server/src/schema.ts:45-54 | in a consistent store where every contract has its side row, exactly the property field the tag names is set |
| Reads.GetContracts | server/src/tests/get_contracts.test.ts:12-176 | the list has one element per contract (empty for an empty store); each element is the contract's columns with left-joined property fields |
| Reads.GetContractsAgreesWithGet | server/src/tests/get_contracts.test.ts:101-156 | with serial ids, every listed element is what `getContract` returns for its id |
| Store.InvariantAfterContractInsert | server/src/handlers/create_erc20.ts:9-16 | the contract insert takes the next serial id, which no existing contract or side row uses; it keeps the invariant, the clock bound and every existing tag, and the new row reads back under its id |
| Store.InvariantAfterErc20Insert | server/src/handlers/create_erc20.ts:21-28 | the ERC20 properties insert takes a fresh serial id and keeps the invariant and clock bound; the row reads back under its contract |
| Store.InvariantAfterNftInsert | server/src/handlers/create_nft.ts:21-28 | the NFT properties insert takes a fresh serial id and keeps the invariant and clock bound; the row reads back under its contract |
| Store.InvariantAfterSetContracts | server/src/handlers/update_erc20.ts:32-38 | writing validated name/symbol values at `now` keeps the invariant, the clock bound, completeness and every tag |
| Store.InvariantAfterSetErc20 | server/src/handlers/update_erc20.ts:49-55 | writing a validated supply and decimals at `now` keeps the invariant (decimals still in 0..18), the clock bound and completeness |
| Store.InvariantAfterSetNft | server/src/handlers/update_nft.ts:51-59 | writing a validated maximum_supply at `now` keeps the invariant, the clock bound and completeness |
| Store.FreshIdUnused | server/src/db/schema.ts:10-31 | an id the contracts sequence has not handed out has no contract row and no side row pointing at it |
| Store.GetContractWellFormed | server/src/schema.ts:21-40 | what `getContract` returns from a store that keeps the invariant obeys the row constraints: a positive id, a non-empty name, a symbol of 1..10 UTF-16 code units, a digit-string supply with decimals in 0..18, and a null or digit-string maximum_supply |
| Store.ReadBackERC20IsGet | server/src/handlers/update_erc20.ts:58-82 | for an ERC20 contract in a consistent store, the update's re-read (joined with erc20_properties only, nft_properties null) is exactly `getContract` |
| Store.ReadBackNFTIsGet | server/src/handlers/update_nft.ts:62-82 | for an NFT contract in a consistent store, the update's re-read is exactly `getContract` |
| Store.WrittenContractsLookups | server/src/handlers/update_erc20.ts:24-38 | the conditional contract write keeps every tag, leaves every other id's row alone, and patches the contract's row only when name or symbol was present |
| Store.WrittenErc20Lookups | server/src/handlers/update_erc20.ts:41-55 | the conditional ERC20 write leaves other contracts' rows alone and patches this contract's row only when total_supply or decimals was present |
| Store.WrittenNftLookups | server/src/handlers/update_nft.ts:43-59 | the conditional NFT write leaves other contracts' rows alone and patches this contract's row only when base_uri or maximum_supply was present |
| Store.UpdateERC20Effect | server/src/handlers/update_erc20.ts:23-82 | after both conditional writes the invariant holds; the re-read succeeds, equals `getContract`, and is the stored contract with each present field replaced, each table's `updated_at` moved to `now` exactly when one of its fields was present, and nothing else changed |
| Store.UpdateNFTEffect | server/src/handlers/update_nft.ts:23-82 | the same for `updateNFT`; an explicit null maximum_supply clears the column |
| Store.Store.constructor | server/src/db/schema.ts:9-36 | an empty store whose three sequences start at 1 satisfies the invariant |
| Store.Store.CreateERC20 | server/src/handlers/create_erc20.ts:6-53 | if the contract insert fails (its sequence exhausted, or the database refuses it) nothing is written and the error names the contracts table. Otherwise the contract row (next id, tag ERC20, input name and symbol, both timestamps now) is appended. If the properties insert then fails in either way, its error is rethrown and the orphan contract reads back with both property fields null. Otherwise the properties row (next id, the new contract's id, supply and decimals verbatim) is appended; the result is the only row of each table for the new id and equals `getContract`. No tag changes; the invariant holds |
| Store.Store.CreateNFT | server/src/handlers/create_nft.ts:6-53 | the same for an NFT create, with base_uri and maximum_supply (null or digits) stored and returned verbatim and erc20_properties null |
| Store.Store.WriteContracts | server/src/handlers/update_erc20.ts:32-38 | the contract-table write of an update replaces the table by `WrittenContracts`, which writes nothing for an empty change set, and leaves the other tables and all sequences alone |
| Store.Store.WriteErc20 | server/src/handlers/update_erc20.ts:49-55 | the same for the `erc20_properties` write, keyed by `contract_id` |
| Store.Store.WriteNft | server/src/handlers/update_nft.ts:51-59 | the same for the `nft_properties` write, keyed by `contract_id` |
| Store.Store.UpdateERC20 | server/src/handlers/update_erc20.ts:7-87 | an unknown id fails "not found" and an NFT contract fails "not an ERC20 contract", both before any write. Otherwise each table is written only when one of its fields is present, as `ERC20Updated` describes. The result equals `getContract` afterwards; an `id`-only input writes nothing and returns the stored contract. No other contract's rows and no tag change |
| Store.Store.UpdateNFT | server/src/handlers/update_nft.ts:7-87 | the same for `updateNFT` over base_uri and the three-state maximum_supply, failing "not an NFT contract" for an ERC20 contract |

## Left out

- The client (React components, `formatSupply`'s float formatting) and the router wiring in `server/src/index.ts` (HTTP, CORS, configuration) are not part of this model. It keeps only the consequence that inputs reach the handlers already validated.
- URL validation (`z.string().url()`) is a library routine whose rules are not modelled; it is the parameter `isUrl`, and `CreateNFT`/`UpdateNFT` take it as a ghost parameter.
- Schema.CreateERC20IssuesExact, Schema.UpdateERC20IssuesExact: `decimals` is an integer, so the `int()` issue zod reports for a fractional `decimals` is not modelled, nor are type errors for wrong JSON types.
- Reads.GetContract, Reads.GetContractSpec, Store.Store.UpdateERC20, Store.Store.UpdateNFT: `id` is a mathematical integer. In the code it is a bare `z.number()`, with no `int()`. A fractional id, or one outside the 32-bit range of the `serial` and `integer` columns (3000000000, say), makes Postgres raise an error that `getContract`, `updateERC20` and `updateNFT` throw. The model does not have that error: it returns no contract, or "not found", for such an id.
- Schema.CreateERC20IssuesExact: the issue lists record the field and the issue code only, not zod's messages.
- Storage failures of the update handlers' writes and of the reads (connection loss, errors Postgres raises) are not modelled. The create handlers model them only as the `rejected` set, without saying why a row was refused. The foreign-key check is stated as the invariant `Consistent` rather than as an error path.
- Store.Store.CreateERC20, Store.Store.CreateNFT: a refused insert leaves its sequence where it was. Postgres may already have consumed a value, which would leave a gap in later ids.
- Store.Store.UpdateERC20, Store.Store.UpdateNFT: the re-read after the writes cannot miss the contract in a store that keeps the invariant, so the `ReadBackMissing` error (a `TypeError` in `updateERC20`, "Updated contract ... not found" in `updateNFT`) is declared but no input reaches it.
- The exact error message texts are reduced to the error datatype's constructors.
- Real time: each handler call takes one clock reading `now` for all its timestamps, whereas the code calls `new Date()` and `defaultNow()` separately and may see different instants.
- Drizzle, async/await and concurrency: each handler is one sequential step over in-memory tables; interleavings of concurrent requests are not modelled.
- `console.error` logging in the handlers' `catch` blocks is left out; the rethrow is modelled as the returned error.
- Reads.GetContracts: `server/src/handlers/get_contracts.ts` is not part of this model; the function follows what its tests assert and lists contracts in table order, an order the tests do not assert.
- Tables.FindErc20At, Tables.FindNftAt: the relations declare one side row per contract, but the tables have no uniqueness constraint on `contract_id`. The model keeps "at most one" as part of the invariant that the handlers preserve, and the lookups return the first match, as `results[0]` does.
