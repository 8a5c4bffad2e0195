/**
 * The validation layer: the inputs each operation accepts, the constraints the
 * input schemas put on them, the issues a failed validation reports, and the
 * combined contract-with-properties view every handler returns.
 *
 * An absent (`undefined`) field is `None`; a field explicitly set to `null` is
 * `Null`, so the update-NFT `maximum_supply` has three states:
 * `None`, `Some(Null)` and `Some(NonNull(digits))`.
 */
module Schema {
  import opened Wrappers
  import opened Tables

  // ---------------------------------------------------------------------------
  // Field constraints
  // ---------------------------------------------------------------------------

  /**
   * A string's JavaScript `length`: its UTF-16 code units. A character above
   * U+FFFF is a surrogate pair and counts twice.
   */
  function Utf16Length(s: string): (n: nat)
    ensures |s| <= n <= 2 * |s|
    ensures n == 0 <==> s == []
  {
    if s == [] then 0 else (if s[0] as int > 0xFFFF then 2 else 1) + Utf16Length(s[1..])
  }

  /** Without characters above U+FFFF the code-unit count is the character count. */
  lemma {:induction false} Utf16LengthOfBmp(s: string)
    requires forall k :: 0 <= k < |s| ==> s[k] as int <= 0xFFFF
    ensures Utf16Length(s) == |s|
  {
    if s != [] {
      Utf16LengthOfBmp(s[1..]);
    }
  }

  /** The code-unit count of a concatenation is the sum of the parts' counts. */
  lemma {:induction false} Utf16LengthAppend(a: string, b: string)
    ensures Utf16Length(a + b) == Utf16Length(a) + Utf16Length(b)
  {
    if a == [] {
      assert a + b == b;
    } else {
      assert (a + b)[0] == a[0];
      assert (a + b)[1..] == a[1..] + b;
      Utf16LengthAppend(a[1..], b);
    }
  }

  /** `z.string().min(1)`, with zod's length in UTF-16 code units. */
  predicate NameOk(s: string) { Utf16Length(s) >= 1 }

  /** `z.string().min(1).max(10)`, with zod's length in UTF-16 code units. */
  predicate SymbolOk(s: string) { 1 <= Utf16Length(s) <= 10 }

  /** `regex(/^\d+$/)`: one or more ASCII decimal digits and nothing else. */
  predicate IsDigits(s: string) {
    |s| >= 1 && forall k :: 0 <= k < |s| ==> '0' <= s[k] <= '9'
  }

  /** `z.number().int().min(0).max(18)` on an integer. */
  predicate DecimalsOk(d: int) { 0 <= d <= 18 }

  /** A nullable supply: `null`, or a digit string. */
  predicate MaxSupplyOk(m: Nullable<string>) {
    m.NonNull? ==> IsDigits(m.value)
  }

  // ---------------------------------------------------------------------------
  // Inputs
  // ---------------------------------------------------------------------------

  datatype CreateERC20Input = CreateERC20Input(
    name: string,
    symbol: string,
    total_supply: string,
    decimals: int)

  datatype CreateNFTInput = CreateNFTInput(
    name: string,
    symbol: string,
    base_uri: string,
    maximum_supply: Nullable<string>)

  /** Only `id` is required; every other field may be absent. */
  datatype UpdateERC20Input = UpdateERC20Input(
    id: int,
    name: Option<string>,
    symbol: Option<string>,
    total_supply: Option<string>,
    decimals: Option<int>)

  datatype UpdateNFTInput = UpdateNFTInput(
    id: int,
    name: Option<string>,
    symbol: Option<string>,
    base_uri: Option<string>,
    maximum_supply: Option<Nullable<string>>)

  /**
   * What passes the input schemas. URL checking is a library call whose rules are
   * not part of the model, so the NFT schemas take it as the predicate `isUrl`.
   */
  predicate CreateERC20InputValid(i: CreateERC20Input) {
    NameOk(i.name) && SymbolOk(i.symbol) && IsDigits(i.total_supply) && DecimalsOk(i.decimals)
  }

  predicate CreateNFTInputValid(i: CreateNFTInput, isUrl: string -> bool) {
    NameOk(i.name) && SymbolOk(i.symbol) && isUrl(i.base_uri) && MaxSupplyOk(i.maximum_supply)
  }

  predicate UpdateERC20InputValid(i: UpdateERC20Input) {
    && (i.name.Some? ==> NameOk(i.name.value))
    && (i.symbol.Some? ==> SymbolOk(i.symbol.value))
    && (i.total_supply.Some? ==> IsDigits(i.total_supply.value))
    && (i.decimals.Some? ==> DecimalsOk(i.decimals.value))
  }

  predicate UpdateNFTInputValid(i: UpdateNFTInput, isUrl: string -> bool) {
    && (i.name.Some? ==> NameOk(i.name.value))
    && (i.symbol.Some? ==> SymbolOk(i.symbol.value))
    && (i.base_uri.Some? ==> isUrl(i.base_uri.value))
    && (i.maximum_supply.Some? ==> MaxSupplyOk(i.maximum_supply.value))
  }

  // ---------------------------------------------------------------------------
  // Validation issues. A failed parse reports one issue per failed check, for
  // every field, not only the first.
  // ---------------------------------------------------------------------------

  datatype Field = Name | Symbol | TotalSupply | Decimals | BaseUri | MaximumSupply

  /** `too_small`, `too_big`, and `invalid_string` split by its regex/url validation. */
  datatype IssueCode = TooSmall | TooBig | InvalidRegex | InvalidUrl

  datatype Issue = Issue(path: Field, code: IssueCode)

  /** The fields an issue list complains about. */
  function Paths(issues: seq<Issue>): set<Field> {
    set x | x in issues :: x.path
  }

  function NameIssues(s: string): seq<Issue> {
    if Utf16Length(s) < 1 then [Issue(Name, TooSmall)] else []
  }

  function SymbolIssues(s: string): seq<Issue> {
    (if Utf16Length(s) < 1 then [Issue(Symbol, TooSmall)] else []) +
    (if Utf16Length(s) > 10 then [Issue(Symbol, TooBig)] else [])
  }

  /**
   * Six copies of U+1D538 are six characters but twelve code units, so the symbol
   * schema rejects them as too long.
   */
  lemma AstralSymbolTooBig()
    ensures var s := "\U{1D538}\U{1D538}\U{1D538}\U{1D538}\U{1D538}\U{1D538}";
      |s| == 6 && Utf16Length(s) == 12 && !SymbolOk(s) && SymbolIssues(s) == [Issue(Symbol, TooBig)]
  {
    var c := "\U{1D538}";
    assert Utf16Length(c) == 2;
    Utf16LengthAppend(c, c);
    Utf16LengthAppend(c + c, c + c + c + c);
    Utf16LengthAppend(c + c, c + c);
    assert c + c + c + c + c + c == (c + c) + ((c + c) + (c + c));
  }

  function DigitsIssues(f: Field, s: string): seq<Issue> {
    if IsDigits(s) then [] else [Issue(f, InvalidRegex)]
  }

  function DecimalsIssues(d: int): seq<Issue> {
    (if d < 0 then [Issue(Decimals, TooSmall)] else []) +
    (if d > 18 then [Issue(Decimals, TooBig)] else [])
  }

  function UrlIssues(s: string, isUrl: string -> bool): seq<Issue> {
    if isUrl(s) then [] else [Issue(BaseUri, InvalidUrl)]
  }

  function MaxSupplyIssues(m: Nullable<string>): seq<Issue> {
    match m
    case Null => []
    case NonNull(s) => DigitsIssues(MaximumSupply, s)
  }

  /** The fields whose constraint a create-ERC20 input breaks. */
  function CreateERC20Violations(i: CreateERC20Input): set<Field> {
    (if NameOk(i.name) then {} else {Name}) +
    (if SymbolOk(i.symbol) then {} else {Symbol}) +
    (if IsDigits(i.total_supply) then {} else {TotalSupply}) +
    (if DecimalsOk(i.decimals) then {} else {Decimals})
  }

  function CreateNFTViolations(i: CreateNFTInput, isUrl: string -> bool): set<Field> {
    (if NameOk(i.name) then {} else {Name}) +
    (if SymbolOk(i.symbol) then {} else {Symbol}) +
    (if isUrl(i.base_uri) then {} else {BaseUri}) +
    (if MaxSupplyOk(i.maximum_supply) then {} else {MaximumSupply})
  }

  function UpdateERC20Violations(i: UpdateERC20Input): set<Field> {
    (if i.name.Some? && !NameOk(i.name.value) then {Name} else {}) +
    (if i.symbol.Some? && !SymbolOk(i.symbol.value) then {Symbol} else {}) +
    (if i.total_supply.Some? && !IsDigits(i.total_supply.value) then {TotalSupply} else {}) +
    (if i.decimals.Some? && !DecimalsOk(i.decimals.value) then {Decimals} else {})
  }

  function UpdateNFTViolations(i: UpdateNFTInput, isUrl: string -> bool): set<Field> {
    (if i.name.Some? && !NameOk(i.name.value) then {Name} else {}) +
    (if i.symbol.Some? && !SymbolOk(i.symbol.value) then {Symbol} else {}) +
    (if i.base_uri.Some? && !isUrl(i.base_uri.value) then {BaseUri} else {}) +
    (if i.maximum_supply.Some? && !MaxSupplyOk(i.maximum_supply.value) then {MaximumSupply} else {})
  }

  /** The issues `createERC20InputSchema` reports, field by field in schema order. */
  function CreateERC20Issues(i: CreateERC20Input): seq<Issue> {
    NameIssues(i.name) + SymbolIssues(i.symbol) + DigitsIssues(TotalSupply, i.total_supply) +
    DecimalsIssues(i.decimals)
  }

  function CreateNFTIssues(i: CreateNFTInput, isUrl: string -> bool): seq<Issue> {
    NameIssues(i.name) + SymbolIssues(i.symbol) + UrlIssues(i.base_uri, isUrl) +
    MaxSupplyIssues(i.maximum_supply)
  }

  /** In the update schemas an absent field is not checked at all. */
  function UpdateERC20Issues(i: UpdateERC20Input): seq<Issue> {
    (if i.name.Some? then NameIssues(i.name.value) else []) +
    (if i.symbol.Some? then SymbolIssues(i.symbol.value) else []) +
    (if i.total_supply.Some? then DigitsIssues(TotalSupply, i.total_supply.value) else []) +
    (if i.decimals.Some? then DecimalsIssues(i.decimals.value) else [])
  }

  function UpdateNFTIssues(i: UpdateNFTInput, isUrl: string -> bool): seq<Issue> {
    (if i.name.Some? then NameIssues(i.name.value) else []) +
    (if i.symbol.Some? then SymbolIssues(i.symbol.value) else []) +
    (if i.base_uri.Some? then UrlIssues(i.base_uri.value, isUrl) else []) +
    (if i.maximum_supply.Some? then MaxSupplyIssues(i.maximum_supply.value) else [])
  }

  lemma PathsAppend(a: seq<Issue>, b: seq<Issue>)
    ensures Paths(a + b) == Paths(a) + Paths(b)
  {
    forall f | f in Paths(a + b) ensures f in Paths(a) + Paths(b) {
      var x :| x in a + b && x.path == f;
      if x in a { assert f in Paths(a); } else { assert x in b; assert f in Paths(b); }
    }
    forall f | f in Paths(a) + Paths(b) ensures f in Paths(a + b) {
      if f in Paths(a) {
        var x :| x in a && x.path == f;
        assert x in a + b;
      } else {
        var x :| x in b && x.path == f;
        assert x in a + b;
      }
    }
  }

  lemma PathsAppend4(a: seq<Issue>, b: seq<Issue>, c: seq<Issue>, d: seq<Issue>)
    ensures Paths(a + b + c + d) == Paths(a) + Paths(b) + Paths(c) + Paths(d)
  {
    PathsAppend(a, b);
    PathsAppend(a + b, c);
    PathsAppend(a + b + c, d);
  }

  /** The name check reports an issue exactly when the name breaks its rule. */
  lemma NameIssuesExact(s: string)
    ensures NameIssues(s) == [] <==> NameOk(s)
    ensures Paths(NameIssues(s)) == if NameOk(s) then {} else {Name}
  {
    if !NameOk(s) {
      assert Issue(Name, TooSmall) in NameIssues(s);
    }
  }

  /** The symbol check reports an issue exactly when the symbol breaks its rule. */
  lemma SymbolIssuesExact(s: string)
    ensures SymbolIssues(s) == [] <==> SymbolOk(s)
    ensures Paths(SymbolIssues(s)) == if SymbolOk(s) then {} else {Symbol}
  {
    var n := Utf16Length(s);
    if n < 1 {
      assert SymbolIssues(s) == [Issue(Symbol, TooSmall)];
    } else if n > 10 {
      assert SymbolIssues(s) == [Issue(Symbol, TooBig)];
    } else {
      assert SymbolIssues(s) == [];
    }
  }

  lemma DigitsIssuesExact(f: Field, s: string)
    ensures DigitsIssues(f, s) == [] <==> IsDigits(s)
    ensures Paths(DigitsIssues(f, s)) == if IsDigits(s) then {} else {f}
  {
    if !IsDigits(s) {
      assert Issue(f, InvalidRegex) in DigitsIssues(f, s);
    }
  }

  lemma DecimalsIssuesExact(d: int)
    ensures DecimalsIssues(d) == [] <==> DecimalsOk(d)
    ensures Paths(DecimalsIssues(d)) == if DecimalsOk(d) then {} else {Decimals}
  {
    if d < 0 {
      assert DecimalsIssues(d) == [Issue(Decimals, TooSmall)];
    } else if d > 18 {
      assert DecimalsIssues(d) == [Issue(Decimals, TooBig)];
    }
  }

  lemma UrlIssuesExact(s: string, isUrl: string -> bool)
    ensures UrlIssues(s, isUrl) == [] <==> isUrl(s)
    ensures Paths(UrlIssues(s, isUrl)) == if isUrl(s) then {} else {BaseUri}
  {
    if !isUrl(s) {
      assert Issue(BaseUri, InvalidUrl) in UrlIssues(s, isUrl);
    }
  }

  lemma MaxSupplyIssuesExact(m: Nullable<string>)
    ensures MaxSupplyIssues(m) == [] <==> MaxSupplyOk(m)
    ensures Paths(MaxSupplyIssues(m)) == if MaxSupplyOk(m) then {} else {MaximumSupply}
  {
    if m.NonNull? {
      DigitsIssuesExact(MaximumSupply, m.value);
    }
  }

  /**
   * An optional field is checked only when present: its issues are the field's
   * issues then, and none otherwise.
   */
  lemma OptionalIssuesExact(present: bool, issues: seq<Issue>, ok: bool, f: Field)
    requires issues == [] <==> ok
    requires Paths(issues) == if ok then {} else {f}
    ensures var x := if present then issues else [];
      && (x == [] <==> (present ==> ok))
      && Paths(x) == if present && !ok then {f} else {}
  {
    if !present {
      assert Paths([]) == {};
    }
  }

  /** Four issue lists are together empty exactly when each of them is. */
  lemma Append4Empty(a: seq<Issue>, b: seq<Issue>, c: seq<Issue>, d: seq<Issue>)
    ensures a + b + c + d == [] <==> a == [] && b == [] && c == [] && d == []
  {
    assert |a + b + c + d| == |a| + |b| + |c| + |d|;
  }

  /**
   * Validation fails exactly on invalid input, and the issues name every field that
   * breaks its constraint and no other.
   */
  lemma CreateERC20IssuesExact(i: CreateERC20Input)
    ensures CreateERC20Issues(i) == [] <==> CreateERC20InputValid(i)
    ensures Paths(CreateERC20Issues(i)) == CreateERC20Violations(i)
  {
    NameIssuesExact(i.name);
    SymbolIssuesExact(i.symbol);
    DigitsIssuesExact(TotalSupply, i.total_supply);
    DecimalsIssuesExact(i.decimals);
    PathsAppend4(NameIssues(i.name), SymbolIssues(i.symbol), DigitsIssues(TotalSupply, i.total_supply),
      DecimalsIssues(i.decimals));
  }

  lemma CreateNFTIssuesExact(i: CreateNFTInput, isUrl: string -> bool)
    ensures CreateNFTIssues(i, isUrl) == [] <==> CreateNFTInputValid(i, isUrl)
    ensures Paths(CreateNFTIssues(i, isUrl)) == CreateNFTViolations(i, isUrl)
  {
    NameIssuesExact(i.name);
    SymbolIssuesExact(i.symbol);
    UrlIssuesExact(i.base_uri, isUrl);
    MaxSupplyIssuesExact(i.maximum_supply);
    PathsAppend4(NameIssues(i.name), SymbolIssues(i.symbol), UrlIssues(i.base_uri, isUrl),
      MaxSupplyIssues(i.maximum_supply));
  }

  lemma UpdateERC20IssuesExact(i: UpdateERC20Input)
    ensures UpdateERC20Issues(i) == [] <==> UpdateERC20InputValid(i)
    ensures Paths(UpdateERC20Issues(i)) == UpdateERC20Violations(i)
  {
    var name, symbol, supply, decimals := i.name.GetOr(""), i.symbol.GetOr(""), i.total_supply.GetOr(""),
      i.decimals.GetOr(0);
    NameIssuesExact(name);
    SymbolIssuesExact(symbol);
    DigitsIssuesExact(TotalSupply, supply);
    DecimalsIssuesExact(decimals);
    OptionalIssuesExact(i.name.Some?, NameIssues(name), NameOk(name), Name);
    OptionalIssuesExact(i.symbol.Some?, SymbolIssues(symbol), SymbolOk(symbol), Symbol);
    OptionalIssuesExact(i.total_supply.Some?, DigitsIssues(TotalSupply, supply), IsDigits(supply), TotalSupply);
    OptionalIssuesExact(i.decimals.Some?, DecimalsIssues(decimals), DecimalsOk(decimals), Decimals);
    var a, b, c, d :=
      if i.name.Some? then NameIssues(name) else [],
      if i.symbol.Some? then SymbolIssues(symbol) else [],
      if i.total_supply.Some? then DigitsIssues(TotalSupply, supply) else [],
      if i.decimals.Some? then DecimalsIssues(decimals) else [];
    assert UpdateERC20Issues(i) == a + b + c + d;
    Append4Empty(a, b, c, d);
    PathsAppend4(a, b, c, d);
  }

  lemma UpdateNFTIssuesExact(i: UpdateNFTInput, isUrl: string -> bool)
    ensures UpdateNFTIssues(i, isUrl) == [] <==> UpdateNFTInputValid(i, isUrl)
    ensures Paths(UpdateNFTIssues(i, isUrl)) == UpdateNFTViolations(i, isUrl)
  {
    var name, symbol, uri, supply := i.name.GetOr(""), i.symbol.GetOr(""), i.base_uri.GetOr(""),
      i.maximum_supply.GetOr(Null);
    NameIssuesExact(name);
    SymbolIssuesExact(symbol);
    UrlIssuesExact(uri, isUrl);
    MaxSupplyIssuesExact(supply);
    OptionalIssuesExact(i.name.Some?, NameIssues(name), NameOk(name), Name);
    OptionalIssuesExact(i.symbol.Some?, SymbolIssues(symbol), SymbolOk(symbol), Symbol);
    OptionalIssuesExact(i.base_uri.Some?, UrlIssues(uri, isUrl), isUrl(uri), BaseUri);
    OptionalIssuesExact(i.maximum_supply.Some?, MaxSupplyIssues(supply), MaxSupplyOk(supply), MaximumSupply);
    var a, b, c, d :=
      if i.name.Some? then NameIssues(name) else [],
      if i.symbol.Some? then SymbolIssues(symbol) else [],
      if i.base_uri.Some? then UrlIssues(uri, isUrl) else [],
      if i.maximum_supply.Some? then MaxSupplyIssues(supply) else [];
    assert UpdateNFTIssues(i, isUrl) == a + b + c + d;
    Append4Empty(a, b, c, d);
    PathsAppend4(a, b, c, d);
  }

  // ---------------------------------------------------------------------------
  // Output shapes
  // ---------------------------------------------------------------------------

  /** `erc20PropertiesSchema`: a properties row's `decimals` lies in 0..18. */
  predicate Erc20PropertiesValid(p: Erc20Row) {
    DecimalsOk(p.decimals)
  }

  /**
   * A contract with its two side records, each independently nullable. The
   * property records have the shape of the side tables' rows.
   */
  datatype ContractWithProperties = ContractWithProperties(
    id: int,
    name: string,
    symbol: string,
    contract_type: ContractType,
    created_at: Timestamp,
    updated_at: Timestamp,
    erc20_properties: Nullable<Erc20Row>,
    nft_properties: Nullable<NftRow>)
  {
    /** The contract columns of the view. */
    function Base(): ContractRow {
      ContractRow(id, name, symbol, contract_type, created_at, updated_at)
    }
  }
}
