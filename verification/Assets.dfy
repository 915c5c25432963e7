/** The asset catalog and its two precomputed lookup tables (internal/models).
    The catalog is arbitrary; `keccak` stands for the hash of an upper-case ticker. */
module Assets {
  import opened Collections
  import opened Text

  datatype Asset = Asset(id: string, symbol: string, name: string, class_: string, aggregator: string)

  type Hasher = string -> seq<byte>

  /** The on-chain id of a ticker: 0x and the hex digits of its hash. */
  function OnChainId(keccak: Hasher, symbol: string): string
  {
    "0x" + Hex(keccak(Upper(symbol)))
  }

  // ----- the simple scan -----

  ghost predicate FirstWith(catalog: seq<Asset>, id: string, i: nat)
    requires i < |catalog|
  {
    catalog[i].id == id && forall j :: 0 <= j < i ==> catalog[j].id != id
  }

  /** The first entry with this id. */
  function Scan(catalog: seq<Asset>, id: string): (r: Option<Asset>)
    ensures r.Some? <==> exists i :: 0 <= i < |catalog| && catalog[i].id == id
    ensures r.Some? ==> exists i :: 0 <= i < |catalog| && catalog[i] == r.value && FirstWith(catalog, id, i)
  {
    if catalog == [] then None
    else if catalog[0].id == id then Some(catalog[0])
    else
      var rest := catalog[1..];
      assert forall i: nat :: i < |rest| && FirstWith(rest, id, i) ==> FirstWith(catalog, id, i + 1);
      assert forall i :: 1 <= i < |catalog| ==> catalog[i] == rest[i - 1];
      Scan(rest, id)
  }

  function Find(catalog: seq<Asset>, id: string): Option<Asset>
  {
    Scan(catalog, Lower(id))
  }

  // ----- the tables -----

  /** Catalog id to on-chain id, filled entry by entry; a repeated id keeps the last. */
  function IdTable(catalog: seq<Asset>, keccak: Hasher, n: nat): map<string, string>
    requires n <= |catalog|
  {
    if n == 0 then map[] else
    IdTable(catalog, keccak, n - 1)[catalog[n - 1].id := OnChainId(keccak, catalog[n - 1].symbol)]
  }

  /** On-chain id to catalog entry. */
  function HashTable(catalog: seq<Asset>, keccak: Hasher, n: nat): map<string, Asset>
    requires n <= |catalog|
  {
    if n == 0 then map[] else
    HashTable(catalog, keccak, n - 1)[OnChainId(keccak, catalog[n - 1].symbol) := catalog[n - 1]]
  }

  function IdHash(catalog: seq<Asset>, keccak: Hasher, idOrSymbol: string): Option<string>
  {
    var table := IdTable(catalog, keccak, |catalog|);
    if Lower(idOrSymbol) in table then Some(table[Lower(idOrSymbol)]) else None
  }

  function ByHash(catalog: seq<Asset>, keccak: Hasher, hash: string): Option<Asset>
  {
    var table := HashTable(catalog, keccak, |catalog|);
    if Lower(Trim(hash)) in table then Some(table[Lower(Trim(hash))]) else None
  }

  /** Ids are in canonical lower case and pairwise distinct. */
  ghost predicate DistinctIds(catalog: seq<Asset>)
  {
    && (forall i :: 0 <= i < |catalog| ==> Lower(catalog[i].id) == catalog[i].id)
    && (forall i, j :: 0 <= i < j < |catalog| ==> catalog[i].id != catalog[j].id)
  }

  /** The hash separates the upper-case tickers of the catalog. */
  ghost predicate DistinctHashes(catalog: seq<Asset>, keccak: Hasher)
  {
    forall i, j :: 0 <= i < j < |catalog| ==> keccak(Upper(catalog[i].symbol)) != keccak(Upper(catalog[j].symbol))
  }

  lemma {:induction false} IdTableKeys(catalog: seq<Asset>, keccak: Hasher, n: nat, id: string)
    requires n <= |catalog|
    ensures id in IdTable(catalog, keccak, n) <==> exists i :: 0 <= i < n && catalog[i].id == id
  {
    if n > 0 {
      IdTableKeys(catalog, keccak, n - 1, id);
    }
  }

  /** Of several entries with one id the table keeps the last. */
  lemma {:induction false} IdTableEntry(catalog: seq<Asset>, keccak: Hasher, n: nat, i: nat)
    requires i < n <= |catalog| && forall j :: i < j < n ==> catalog[j].id != catalog[i].id
    ensures catalog[i].id in IdTable(catalog, keccak, n)
    ensures IdTable(catalog, keccak, n)[catalog[i].id] == OnChainId(keccak, catalog[i].symbol)
  {
    if i < n - 1 {
      IdTableEntry(catalog, keccak, n - 1, i);
    }
  }

  lemma {:induction false} HashTableSound(catalog: seq<Asset>, keccak: Hasher, n: nat, h: string)
    requires n <= |catalog| && h in HashTable(catalog, keccak, n)
    ensures exists i :: 0 <= i < n &&
              HashTable(catalog, keccak, n)[h] == catalog[i] && OnChainId(keccak, catalog[i].symbol) == h
  {
    if OnChainId(keccak, catalog[n - 1].symbol) != h {
      HashTableSound(catalog, keccak, n - 1, h);
    }
  }

  /** Of several entries with one on-chain id the table keeps the last. */
  lemma {:induction false} HashTableEntry(catalog: seq<Asset>, keccak: Hasher, n: nat, i: nat)
    requires i < n <= |catalog|
    requires forall j :: i < j < n ==> OnChainId(keccak, catalog[j].symbol) != OnChainId(keccak, catalog[i].symbol)
    ensures OnChainId(keccak, catalog[i].symbol) in HashTable(catalog, keccak, n)
    ensures HashTable(catalog, keccak, n)[OnChainId(keccak, catalog[i].symbol)] == catalog[i]
  {
    if i < n - 1 {
      HashTableEntry(catalog, keccak, n - 1, i);
    }
  }

  lemma {:induction false} OwnHashEntry(catalog: seq<Asset>, keccak: Hasher, i: nat)
    requires i < |catalog| && DistinctHashes(catalog, keccak)
    ensures OnChainId(keccak, catalog[i].symbol) in HashTable(catalog, keccak, |catalog|)
    ensures HashTable(catalog, keccak, |catalog|)[OnChainId(keccak, catalog[i].symbol)] == catalog[i]
  {
    forall j | i < j < |catalog| ensures OnChainId(keccak, catalog[j].symbol) != OnChainId(keccak, catalog[i].symbol) {
      SeparateIds(catalog, keccak, i, j);
    }
    HashTableEntry(catalog, keccak, |catalog|, i);
  }

  /** Different hashes have different on-chain ids. */
  lemma {:induction false} SeparateIds(catalog: seq<Asset>, keccak: Hasher, i: nat, j: nat)
    requires i < j < |catalog| && DistinctHashes(catalog, keccak)
    ensures OnChainId(keccak, catalog[i].symbol) != OnChainId(keccak, catalog[j].symbol)
  {
    var a, b := keccak(Upper(catalog[i].symbol)), keccak(Upper(catalog[j].symbol));
    if "0x" + Hex(a) == "0x" + Hex(b) {
      assert ("0x" + Hex(a))[2..] == Hex(a) && ("0x" + Hex(b))[2..] == Hex(b);
      HexInjective(a, b);
    }
  }

  /** On-chain ids are canonical: trimming and lowering leave them alone. */
  lemma {:induction false} OnChainIdPlain(keccak: Hasher, symbol: string)
    ensures Lower(Trim(OnChainId(keccak, symbol))) == OnChainId(keccak, symbol)
    ensures Lower(OnChainId(keccak, symbol)) == OnChainId(keccak, symbol)
  {
    var h := OnChainId(keccak, symbol);
    forall i | 0 <= i < |h| ensures Plain(h[i]) {
      if i >= 2 { assert h[i] == Hex(keccak(Upper(symbol)))[i - 2]; }
    }
    PlainStays(h);
  }

  // ----- the index agrees with the scan -----

  /** For any catalog at all, the table and the scan succeed on the same inputs. */
  lemma {:induction false} IndexFindsWhatScanFinds(catalog: seq<Asset>, keccak: Hasher, x: string)
    ensures IdHash(catalog, keccak, x).Some? <==> Find(catalog, x).Some?
  {
    IdTableKeys(catalog, keccak, |catalog|, Lower(x));
  }

  /** With distinct ids the table gives the on-chain id of the entry that the scan finds. */
  lemma {:induction false} IndexAgreesWithScan(catalog: seq<Asset>, keccak: Hasher, x: string)
    requires DistinctIds(catalog) && Find(catalog, x).Some?
    ensures IdHash(catalog, keccak, x) == Some(OnChainId(keccak, Find(catalog, x).value.symbol))
  {
    var a := Find(catalog, x).value;
    var i :| 0 <= i < |catalog| && catalog[i] == a;
    IdTableEntry(catalog, keccak, |catalog|, i);
  }

  /** The two tables are inverse to each other on every input that the scan accepts. */
  ghost predicate RoundTrips(catalog: seq<Asset>, keccak: Hasher)
  {
    forall x :: Find(catalog, x).Some? ==>
      IdHash(catalog, keccak, x).Some? && ByHash(catalog, keccak, IdHash(catalog, keccak, x).value) == Find(catalog, x)
  }

  /** They are so exactly when the hash separates the catalog's tickers. */
  lemma {:induction false} RoundTripIffSeparated(catalog: seq<Asset>, keccak: Hasher)
    requires DistinctIds(catalog)
    ensures RoundTrips(catalog, keccak) <==> DistinctHashes(catalog, keccak)
  {
    if DistinctHashes(catalog, keccak) {
      forall x | Find(catalog, x).Some?
        ensures IdHash(catalog, keccak, x).Some? &&
                ByHash(catalog, keccak, IdHash(catalog, keccak, x).value) == Find(catalog, x)
      {
        SeparatedRoundTrip(catalog, keccak, x);
      }
    } else {
      var i, j :| 0 <= i < j < |catalog| && keccak(Upper(catalog[i].symbol)) == keccak(Upper(catalog[j].symbol));
      if RoundTrips(catalog, keccak) {
        RoundTripAt(catalog, keccak, i);
        RoundTripAt(catalog, keccak, j);
        assert false;
      }
    }
  }

  lemma {:induction false} SeparatedRoundTrip(catalog: seq<Asset>, keccak: Hasher, x: string)
    requires DistinctIds(catalog) && DistinctHashes(catalog, keccak) && Find(catalog, x).Some?
    ensures IdHash(catalog, keccak, x).Some?
    ensures ByHash(catalog, keccak, IdHash(catalog, keccak, x).value) == Find(catalog, x)
  {
    var a := Find(catalog, x).value;
    var i :| 0 <= i < |catalog| && catalog[i] == a;
    IndexAgreesWithScan(catalog, keccak, x);
    ByOwnHash(catalog, keccak, i, OnChainId(keccak, a.symbol));
  }

  lemma {:induction false} ByOwnHash(catalog: seq<Asset>, keccak: Hasher, i: nat, h: string)
    requires DistinctHashes(catalog, keccak) && i < |catalog| && h == OnChainId(keccak, catalog[i].symbol)
    ensures ByHash(catalog, keccak, h) == Some(catalog[i])
  {
    OnChainIdPlain(keccak, catalog[i].symbol);
    OwnHashEntry(catalog, keccak, i);
    LookupAt(catalog, keccak, h, catalog[i]);
  }

  lemma {:induction false} LookupAt(catalog: seq<Asset>, keccak: Hasher, h: string, a: Asset)
    requires Lower(Trim(h)) == h && h in HashTable(catalog, keccak, |catalog|)
    requires HashTable(catalog, keccak, |catalog|)[h] == a
    ensures ByHash(catalog, keccak, h) == Some(a)
  {
  }

  lemma {:induction false} RoundTripAt(catalog: seq<Asset>, keccak: Hasher, i: nat)
    requires DistinctIds(catalog) && RoundTrips(catalog, keccak) && i < |catalog|
    ensures ByHash(catalog, keccak, OnChainId(keccak, catalog[i].symbol)) == Some(catalog[i])
  {
    var x := catalog[i].id;
    FindOwnId(catalog, i);
    IndexAgreesWithScan(catalog, keccak, x);
  }

  lemma {:induction false} FindOwnId(catalog: seq<Asset>, i: nat)
    requires DistinctIds(catalog) && i < |catalog|
    ensures Find(catalog, catalog[i].id) == Some(catalog[i])
  {
    var r := Scan(catalog, catalog[i].id);
    var k :| 0 <= k < |catalog| && catalog[k] == r.value;
    assert k == i;
  }

  lemma {:induction false} ByHashByKey(catalog: seq<Asset>, keccak: Hasher, hash: string, i: nat)
    requires DistinctHashes(catalog, keccak) && i < |catalog|
    ensures ByHash(catalog, keccak, hash) == Some(catalog[i]) <==>
            Lower(Trim(hash)) == OnChainId(keccak, catalog[i].symbol)
  {
    var h := Lower(Trim(hash));
    if h == OnChainId(keccak, catalog[i].symbol) {
      OwnHashEntry(catalog, keccak, i);
    } else if ByHash(catalog, keccak, hash) == Some(catalog[i]) {
      HashTableSound(catalog, keccak, |catalog|, h);
    }
  }

  // ----- spellings -----

  /** Lookups by id are case-insensitive and no looser: an input finds an entry, by the scan
      and in the table, if and only if it is the entry's id up to the case of its letters. */
  lemma {:induction false} SpellingsFind(catalog: seq<Asset>, keccak: Hasher, x: string, i: nat)
    requires DistinctIds(catalog) && i < |catalog|
    ensures Find(catalog, x) == Some(catalog[i]) <==> Spells(x, catalog[i].id)
    ensures Spells(x, catalog[i].id) ==> IdHash(catalog, keccak, x) == Some(OnChainId(keccak, catalog[i].symbol))
  {
    LowerIffSpells(x, catalog[i].id);
    FindOwnId(catalog, i);
    if Spells(x, catalog[i].id) {
      IndexAgreesWithScan(catalog, keccak, x);
    }
  }

  /** The text is an on-chain id in any letter case, with white space around it. */
  ghost predicate SpellsId(hash: string, id: string)
  {
    exists a: nat, b: nat :: Core(hash, a, b) && Spells(hash[a..b], id)
  }

  lemma {:induction false} TrimIffSpellsId(hash: string, id: string)
    requires Lower(id) == id && id != []
    ensures Lower(Trim(hash)) == id <==> SpellsId(hash, id)
  {
    var a, b := TrimIsCore(hash);
    LowerIffSpells(hash[a..b], id);
    if SpellsId(hash, id) {
      var c: nat, d: nat :| Core(hash, c, d) && Spells(hash[c..d], id);
      CoreIsTrim(hash, c, d);
      LowerIffSpells(hash[c..d], id);
    }
  }

  /** A reverse lookup gives an entry if and only if the text spells its on-chain id. */
  lemma {:induction false} ByHashExact(catalog: seq<Asset>, keccak: Hasher, hash: string, i: nat)
    requires DistinctHashes(catalog, keccak) && i < |catalog|
    ensures ByHash(catalog, keccak, hash) == Some(catalog[i]) <==> SpellsId(hash, OnChainId(keccak, catalog[i].symbol))
  {
    ByHashByKey(catalog, keccak, hash, i);
    OnChainIdPlain(keccak, catalog[i].symbol);
    TrimIffSpellsId(hash, OnChainId(keccak, catalog[i].symbol));
  }

  /** An on-chain id is 0x and two digits for every byte of the hash of the upper-case ticker. */
  lemma {:induction false} OnChainIdDigits(keccak: Hasher, symbol: string, ticker: string, k: nat)
    requires |ticker| == |symbol|
    requires forall i :: 0 <= i < |symbol| ==>
               ticker[i] as int == symbol[i] as int - if 'a' <= symbol[i] <= 'z' then 32 else 0
    requires k < |keccak(ticker)|
    ensures var id := OnChainId(keccak, symbol);
            && |id| == 2 + 2 * |keccak(ticker)| && id[..2] == "0x"
            && 16 * DigitValue(id[2 + 2 * k]) + DigitValue(id[3 + 2 * k]) == keccak(ticker)[k] as int
  {
    assert Upper(symbol) == ticker;
    HexDigits(keccak(ticker), k);
  }

  // ----- the shipped catalog -----

  const CATALOG := [
    Asset("weth", "WETH", "Wrapped Ether", "crypto", ""),
    Asset("wbtc", "WBTC", "Wrapped Bitcoin", "crypto", ""),
    Asset("link", "LINK", "Chainlink", "crypto", ""),
    Asset("uni", "UNI", "Uniswap", "crypto", ""),
    Asset("aave", "AAVE", "Aave", "crypto", ""),
    Asset("xau", "XAU", "Gold (troy ounce)", "rwa", ""),
    Asset("xag", "XAG", "Silver (troy ounce)", "rwa", ""),
    Asset("spx", "SPX", "S&P 500 Index", "rwa", ""),
    Asset("wti", "WTI", "Crude Oil (WTI)", "rwa", ""),
    Asset("hg", "HG", "Copper (HG)", "rwa", "")]

  /** Every ticker of the shipped catalog spells the id of its entry. */
  lemma {:induction false} TickersSpellIds(i: nat)
    requires i < |CATALOG|
    ensures Spells(CATALOG[i].symbol, CATALOG[i].id)
  {
    var x, y := CATALOG[i].symbol, CATALOG[i].id;
    assert |x| == |y| && 2 <= |y| <= 4;
  }

  /** The shipped catalog meets the hypothesis of the results above. */
  lemma {:induction false} CatalogIsDistinct()
    ensures DistinctIds(CATALOG)
  {
    forall i | 0 <= i < |CATALOG| ensures Lower(CATALOG[i].id) == CATALOG[i].id {
      PlainStays(CATALOG[i].id);
    }
    forall i, j | 0 <= i < j < |CATALOG| ensures CATALOG[i].id != CATALOG[j].id {
      IdsDiffer(i, j);
    }
  }

  lemma {:induction false} IdsDiffer(i: nat, j: nat)
    requires i < j < |CATALOG|
    ensures CATALOG[i].id != CATALOG[j].id
  {
    var x, y := CATALOG[i].id, CATALOG[j].id;
    assert |x| != |y| || x[0] != y[0] || x[1] != y[1] || x[2] != y[2];
  }

  // ----- the loops -----

  method NormaliseAssetID(id: string) returns (r: string)
    ensures r == Lower(id)
    ensures forall i :: 0 <= i < |id| ==> r[i] as int == id[i] as int + if 'A' <= id[i] <= 'Z' then 32 else 0
  {
    var b := new char[|id|];
    for i := 0 to |id|
      invariant forall k :: 0 <= k < i ==> b[k] == LowerChar(id[k])
    {
      var c := id[i];
      if 'A' <= c <= 'Z' {
        c := (c as int + ('a' as int - 'A' as int)) as char;
      }
      b[i] := c;
    }
    r := b[..];
  }

  method FindAsset(catalog: seq<Asset>, id: string) returns (r: Option<Asset>)
    ensures r == Find(catalog, id)
  {
    var key := NormaliseAssetID(id);
    for i := 0 to |catalog|
      invariant Scan(catalog, key) == Scan(catalog[i..], key)
    {
      if catalog[i].id == key {
        return Some(catalog[i]);
      }
      assert catalog[i..][1..] == catalog[i + 1..];
    }
    return None;
  }

  method AssetIDs(catalog: seq<Asset>) returns (ids: seq<string>)
    ensures |ids| == |catalog| && forall i :: 0 <= i < |catalog| ==> ids[i] == catalog[i].id
  {
    var out := new string[|catalog|](_ => "");
    for i := 0 to |catalog|
      invariant forall k :: 0 <= k < i ==> out[k] == catalog[k].id
    {
      out[i] := catalog[i].id;
    }
    ids := out[..];
  }

  /** The package-level tables, filled once at load. */
  class AssetIndex {
    const catalog: seq<Asset>
    const keccak: Hasher
    var assetIDHashByID: map<string, string>
    var assetByIDHashLower: map<string, Asset>

    ghost predicate Valid()
      reads this
    {
      && assetIDHashByID == IdTable(catalog, keccak, |catalog|)
      && assetByIDHashLower == HashTable(catalog, keccak, |catalog|)
    }

    constructor (catalog: seq<Asset>, keccak: Hasher)
      ensures Valid() && this.catalog == catalog && this.keccak == keccak
    {
      this.catalog, this.keccak := catalog, keccak;
      assetIDHashByID, assetByIDHashLower := map[], map[];
      new;
      for i := 0 to |catalog|
        invariant this.catalog == catalog && this.keccak == keccak
        invariant assetIDHashByID == IdTable(catalog, keccak, i)
        invariant assetByIDHashLower == HashTable(catalog, keccak, i)
      {
        var h := OnChainId(keccak, catalog[i].symbol);
        assetIDHashByID := assetIDHashByID[catalog[i].id := h];
        assetByIDHashLower := assetByIDHashLower[h := catalog[i]];
      }
    }

    method AssetIDHash(idOrSymbol: string) returns (r: Option<string>)
      requires Valid()
      ensures r == IdHash(catalog, keccak, idOrSymbol)
    {
      var key := NormaliseAssetID(idOrSymbol);
      r := if key in assetIDHashByID then Some(assetIDHashByID[key]) else None;
    }

    method AssetByIDHash(hash: string) returns (r: Option<Asset>)
      requires Valid()
      ensures r == ByHash(catalog, keccak, hash)
    {
      var key := Lower(Trim(hash));
      r := if key in assetByIDHashLower then Some(assetByIDHashLower[key]) else None;
    }
  }
}
