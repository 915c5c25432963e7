/** The asset list (internal/handlers): the catalog joined with the aggregator registry,
    the price service and the indexer.  Upstream services are arbitrary reply functions. */
module Handlers {
  import opened Collections
  import opened Text
  import opened Assets
  import opened Registry

  datatype PriceReply = Price(value: real) | NotFound | PriceFailed

  /** The last fulfilled round as the summary shows it. */
  datatype Round = Round(price: string, txHash: string, observedAt: int)

  datatype Summary = Summary(asset: Asset, latestPrice: Option<real>, lastOnChain: Option<Round>)

  type PriceService = string -> PriceReply

  /** The indexer's answer to a query for one on-chain asset id. */
  type Indexer = string -> IndexerReply

  /** The newest fulfilment of an asset, trusted only if the row names the asset asked for. */
  function LatestRound(catalog: seq<Asset>, keccak: Hasher, indexer: Indexer, id: string): (r: Option<Event>)
    ensures r.Some? ==> r.value.fulfilled.Some?
  {
    match IdHash(catalog, keccak, id)
    case None => None
    case Some(idHash) =>
      match indexer(idHash)
      case IndexerFailed => None
      case Events(events) =>
        if |events| == 0 || events[0].fulfilled == None then None
        else if !EqualFold(events[0].fulfilled.value.assetID, idHash) then None
        else Some(events[0])
  }

  function AttachLastOnChain(s: Summary, last: Option<Event>): Summary
    requires last.Some? ==> last.value.fulfilled.Some?
  {
    if last == None then s
    else s.(lastOnChain := Some(Round(last.value.fulfilled.value.price, last.value.txHash, last.value.observedAt)))
  }

  /** The summary of one catalog entry. */
  function SummaryOf(catalog: seq<Asset>, keccak: Hasher, byAsset: map<string, string>,
                     prices: PriceService, indexer: Indexer, a: Asset): Summary
  {
    var listed := if Lower(a.id) in byAsset then a.(aggregator := byAsset[Lower(a.id)]) else a;
    var price := if prices(a.id).Price? then Some(prices(a.id).value) else None;
    AttachLastOnChain(Summary(listed, price, None), LatestRound(catalog, keccak, indexer, a.id))
  }

  method LatestOnChainRound(index: AssetIndex, indexer: Indexer, id: string) returns (r: Option<Event>)
    requires index.Valid()
    ensures r == LatestRound(index.catalog, index.keccak, indexer, id)
  {
    var idHash := index.AssetIDHash(id);
    if idHash == None {
      return None;
    }
    var reply := indexer(idHash.value);
    if reply.IndexerFailed? {
      return None;
    }
    var events := reply.events;
    if |events| == 0 || events[0].fulfilled == None {
      return None;
    }
    if !EqualFold(events[0].fulfilled.value.assetID, idHash.value) {
      return None;
    }
    return Some(events[0]);
  }

  /** One summary per catalog entry, in catalog order. */
  method ListAssets(index: AssetIndex, registry: AggregatorRegistry, prices: PriceService, indexer: Indexer)
    returns (out: seq<Summary>)
    requires index.Valid()
    ensures |out| == |index.catalog|
    ensures forall i :: 0 <= i < |out| ==>
              out[i] == SummaryOf(index.catalog, index.keccak, registry.byAsset, prices, indexer, index.catalog[i])
  {
    out := [];
    for i := 0 to |index.catalog|
      invariant |out| == i
      invariant forall k :: 0 <= k < i ==>
                  out[k] == SummaryOf(index.catalog, index.keccak, registry.byAsset, prices, indexer, index.catalog[k])
    {
      var asset := index.catalog[i];
      var summary := Summary(asset, None, None);
      var addr := registry.Aggregator(asset.id);
      if addr.Some? {
        summary := summary.(asset := asset.(aggregator := addr.value));
      }
      var price := prices(asset.id);
      if price.Price? {
        summary := summary.(latestPrice := Some(price.value));
      }
      var last := LatestOnChainRound(index, indexer, asset.id);
      summary := AttachLastOnChain(summary, last);
      out := out + [summary];
    }
  }

  /** The row is a fulfilment of the asset: up to the case of letters, its id is the on-chain id of the entry. */
  ghost predicate NamesAsset(keccak: Hasher, a: Asset, e: Event)
  {
    e.fulfilled.Some? && Spells(e.fulfilled.value.assetID, OnChainId(keccak, a.symbol))
  }

  /** The indexer answers the query for this entry with a first row that names it. */
  ghost predicate Confirmed(keccak: Hasher, a: Asset, reply: IndexerReply)
  {
    reply.Events? && |reply.events| > 0 && NamesAsset(keccak, a, reply.events[0])
  }

  /** The round of an entry is the first row of the reply to its own query, if that names it. */
  lemma {:induction false} RoundIsConfirmedRow(catalog: seq<Asset>, keccak: Hasher, indexer: Indexer, i: nat)
    requires DistinctIds(catalog) && i < |catalog|
    ensures var reply := indexer(OnChainId(keccak, catalog[i].symbol));
            LatestRound(catalog, keccak, indexer, catalog[i].id) ==
            if Confirmed(keccak, catalog[i], reply) then Some(reply.events[0]) else None
  {
    FindOwnId(catalog, i);
    IndexAgreesWithScan(catalog, keccak, catalog[i].id);
    OnChainIdPlain(keccak, catalog[i].symbol);
    var reply := indexer(OnChainId(keccak, catalog[i].symbol));
    if reply.Events? && |reply.events| > 0 && reply.events[0].fulfilled.Some? {
      LowerIffSpells(reply.events[0].fulfilled.value.assetID, OnChainId(keccak, catalog[i].symbol));
    }
  }

  lemma {:induction false} NamesOneAsset(catalog: seq<Asset>, keccak: Hasher, e: Event, i: nat, j: nat)
    requires DistinctHashes(catalog, keccak) && i < |catalog| && j < |catalog|
    requires NamesAsset(keccak, catalog[i], e) && NamesAsset(keccak, catalog[j], e)
    ensures i == j
  {
    OnChainIdPlain(keccak, catalog[i].symbol);
    OnChainIdPlain(keccak, catalog[j].symbol);
    LowerIffSpells(e.fulfilled.value.assetID, OnChainId(keccak, catalog[i].symbol));
    LowerIffSpells(e.fulfilled.value.assetID, OnChainId(keccak, catalog[j].symbol));
    if i < j {
      SeparateIds(catalog, keccak, i, j);
    } else if j < i {
      SeparateIds(catalog, keccak, j, i);
    }
  }

  /** The join is faithful whatever the upstream services answer: a summary keeps every
      field of its entry but the address, which is the registry's if it has one; it shows a
      price exactly when the price service has one; and it shows a fulfilment exactly when
      the first row of the reply to the query for this entry's on-chain id is a fulfilment
      with that id, then that row's, which names no other entry of the catalog. */
  lemma {:induction false} JoinIsFaithful(catalog: seq<Asset>, keccak: Hasher, byAsset: map<string, string>,
                                          prices: PriceService, indexer: Indexer, i: nat)
    requires DistinctIds(catalog) && DistinctHashes(catalog, keccak) && i < |catalog|
    ensures var a, s := catalog[i], SummaryOf(catalog, keccak, byAsset, prices, indexer, catalog[i]);
            && s.asset == a.(aggregator := if a.id in byAsset then byAsset[a.id] else a.aggregator)
            && s.latestPrice == (if prices(a.id).Price? then Some(prices(a.id).value) else None)
            && var reply := indexer(OnChainId(keccak, a.symbol));
               && (s.lastOnChain.Some? <==> Confirmed(keccak, a, reply))
               && (s.lastOnChain.Some? ==>
                     var row := reply.events[0];
                     && s.lastOnChain.value == Round(row.fulfilled.value.price, row.txHash, row.observedAt)
                     && forall j :: 0 <= j < |catalog| && j != i ==> !NamesAsset(keccak, catalog[j], row))
  {
    var reply := indexer(OnChainId(keccak, catalog[i].symbol));
    assert Lower(catalog[i].id) == catalog[i].id;
    RoundIsConfirmedRow(catalog, keccak, indexer, i);
    if Confirmed(keccak, catalog[i], reply) {
      forall j | 0 <= j < |catalog| && j != i ensures !NamesAsset(keccak, catalog[j], reply.events[0]) {
        if NamesAsset(keccak, catalog[j], reply.events[0]) {
          NamesOneAsset(catalog, keccak, reply.events[0], i, j);
        }
      }
    }
  }
}
