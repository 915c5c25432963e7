/** The cache of aggregator addresses (internal/aggregatorregistry), filled from a page
    of events at startup and from the live stream that the hub forwards. */
module Registry {
  import opened Collections
  import opened Text
  import opened Assets

  datatype Kind = Unspecified | PriceRequested | PriceFulfilled | AssetRegistered

  datatype Registration = Registration(assetID: string, aggregator: string)

  datatype Fulfilment = Fulfilment(assetID: string, price: string)

  datatype Event = Event(kind: Kind, txHash: string, observedAt: int,
                         fulfilled: Option<Fulfilment>, registered: Option<Registration>)

  datatype IndexerReply = Events(events: seq<Event>) | IndexerFailed

  /** One assignment to the map: asset id and address. */
  datatype Write = Write(id: string, address: string)

  /** What an event with a registration payload writes. */
  type Effect = Event -> seq<Write>

  /** A registration writes if its on-chain id belongs to the catalog. */
  function WriteOf(catalog: seq<Asset>, keccak: Hasher, e: Event): seq<Write>
  {
    if e.registered == None then [] else
    match ByHash(catalog, keccak, e.registered.value.assetID)
    case None => []
    case Some(asset) => [Write(Lower(asset.id), e.registered.value.aggregator)]
  }

  function EffectOf(catalog: seq<Asset>, keccak: Hasher): Effect
  {
    e => WriteOf(catalog, keccak, e)
  }

  /** The startup load looks only at the payload. */
  function PageWrites(f: Effect, events: seq<Event>): seq<Write>
  {
    if events == [] then [] else PageWrites(f, events[..|events| - 1]) + f(events[|events| - 1])
  }

  /** The live handler also looks at the kind. */
  function LiveWrites(f: Effect, e: Event): seq<Write>
  {
    if e.kind == AssetRegistered then f(e) else []
  }

  function Fold(m: map<string, string>, ws: seq<Write>): map<string, string>
  {
    if ws == [] then m else Fold(m, ws[..|ws| - 1])[ws[|ws| - 1].id := ws[|ws| - 1].address]
  }

  lemma {:induction false} FoldConcat(m: map<string, string>, a: seq<Write>, b: seq<Write>)
    ensures Fold(m, a + b) == Fold(Fold(m, a), b)
  {
    if b == [] {
      assert a + b == a;
    } else {
      var n := |b| - 1;
      FoldConcat(m, a, b[..n]);
      assert (a + b)[..|a + b| - 1] == a + b[..n];
    }
  }

  lemma {:induction false} FoldOne(m: map<string, string>, w: Write)
    ensures Fold(m, [w]) == m[w.id := w.address]
  {
    assert [w][..0] == [];
  }

  lemma {:induction false} EffectCases(catalog: seq<Asset>, keccak: Hasher, e: Event, found: Option<Asset>)
    requires e.registered.Some? && found == ByHash(catalog, keccak, e.registered.value.assetID)
    ensures EffectOf(catalog, keccak)(e) ==
            if found.None? then [] else [Write(Lower(found.value.id), e.registered.value.aggregator)]
  {
  }

  class AggregatorRegistry {
    const index: AssetIndex
    var byAsset: map<string, string>

    constructor (index: AssetIndex)
      ensures this.index == index && byAsset == map[]
    {
      this.index := index;
      byAsset := map[];
    }

    method Set(assetID: string, address: string)
      modifies this
      ensures byAsset == old(byAsset)[Lower(assetID) := address]
    {
      var key := NormaliseAssetID(assetID);
      byAsset := byAsset[key := address];
    }

    method Aggregator(assetID: string) returns (r: Option<string>)
      ensures r == if Lower(assetID) in byAsset then Some(byAsset[Lower(assetID)]) else None
    {
      var key := NormaliseAssetID(assetID);
      r := if key in byAsset then Some(byAsset[key]) else None;
    }

    /** What the load loop and the stream callback both do with a registration payload. */
    method Absorb(e: Event)
      requires index.Valid()
      modifies this
      ensures byAsset == Fold(old(byAsset), EffectOf(index.catalog, index.keccak)(e))
    {
      ghost var was := byAsset;
      if e.registered == None {
        return;
      }
      var asset := index.AssetByIDHash(e.registered.value.assetID);
      EffectCases(index.catalog, index.keccak, e, asset);
      if asset == None {
        return;
      }
      Set(asset.value.id, e.registered.value.aggregator);
      FoldOne(was, Write(Lower(asset.value.id), e.registered.value.aggregator));
    }

    /** Merges one page of events; a failed query changes nothing. */
    method Load(reply: IndexerReply) returns (ok: bool)
      requires index.Valid()
      modifies this
      ensures ok <==> reply.Events?
      ensures byAsset == if ok then Fold(old(byAsset), PageWrites(EffectOf(index.catalog, index.keccak), reply.events))
                         else old(byAsset)
    {
      if reply.IndexerFailed? {
        return false;
      }
      var events := reply.events;
      for i := 0 to |events|
        invariant index.Valid()
        invariant byAsset == Fold(old(byAsset), PageWrites(EffectOf(index.catalog, index.keccak), events[..i]))
      {
        assert events[..i + 1][..i] == events[..i];
        ghost var f := EffectOf(index.catalog, index.keccak);
        FoldConcat(old(byAsset), PageWrites(f, events[..i]), f(events[i]));
        Absorb(events[i]);
      }
      assert events[..|events|] == events;
      return true;
    }

    /** The registry part of the hub's stream callback. */
    method OnLiveEvent(e: Event)
      requires index.Valid()
      modifies this
      ensures byAsset == Fold(old(byAsset), LiveWrites(EffectOf(index.catalog, index.keccak), e))
    {
      if e.kind == AssetRegistered && e.registered != None {
        Absorb(e);
      }
    }

    method Snapshot() returns (out: map<string, string>)
      ensures out == byAsset
    {
      out := map[];
      var keys := byAsset.Keys;
      while keys != {}
        invariant keys <= byAsset.Keys
        invariant out == map k | k in byAsset && k !in keys :: byAsset[k]
      {
        var k :| k in keys;
        out := out[k := byAsset[k]];
        keys := keys - {k};
      }
    }
  }

  // ----- any mix of loads and live events -----

  datatype Input = Page(events: seq<Event>) | Live(event: Event)

  function InputWrites(f: Effect, input: Input): seq<Write>
  {
    match input
    case Page(events) => PageWrites(f, events)
    case Live(e) => LiveWrites(f, e)
  }

  function AllWrites(f: Effect, inputs: seq<Input>): seq<Write>
  {
    if inputs == [] then [] else
    AllWrites(f, inputs[..|inputs| - 1]) + InputWrites(f, inputs[|inputs| - 1])
  }

  /** The map after processing the inputs one by one from an empty registry. */
  function Process(f: Effect, inputs: seq<Input>): map<string, string>
  {
    if inputs == [] then map[] else
    Fold(Process(f, inputs[..|inputs| - 1]), InputWrites(f, inputs[|inputs| - 1]))
  }

  lemma {:induction false} ProcessIsFold(f: Effect, inputs: seq<Input>)
    ensures Process(f, inputs) == Fold(map[], AllWrites(f, inputs))
  {
    if inputs != [] {
      var n := |inputs| - 1;
      ProcessIsFold(f, inputs[..n]);
      FoldConcat(map[], AllWrites(f, inputs[..n]), InputWrites(f, inputs[n]));
    }
  }

  /** Write `i` is the last one for its id. */
  ghost predicate LastFor(ws: seq<Write>, i: nat)
    requires i < |ws|
  {
    forall j :: i < j < |ws| ==> ws[j].id != ws[i].id
  }

  /** An id is a key exactly when it was written, with the value of its last write. */
  lemma {:induction false} FoldLast(ws: seq<Write>, id: string)
    ensures id in Fold(map[], ws) ==> exists i: nat :: i < |ws| && ws[i].id == id && LastFor(ws, i)
    ensures forall i: nat :: i < |ws| && ws[i].id == id && LastFor(ws, i) ==>
              id in Fold(map[], ws) && Fold(map[], ws)[id] == ws[i].address
  {
    if ws != [] {
      var n := |ws| - 1;
      var front := ws[..n];
      FoldLast(front, id);
      if ws[n].id == id {
        assert LastFor(ws, n);
      } else {
        forall i: nat | i < n && ws[i].id == id ensures LastFor(ws, i) <==> LastFor(front, i) {
          LastForFront(ws, i);
        }
        if id in Fold(map[], ws) {
          var i: nat :| i < |front| && front[i].id == id && LastFor(front, i);
          assert ws[i].id == id && LastFor(ws, i);
        }
      }
    }
  }

  lemma {:induction false} LastForFront(ws: seq<Write>, i: nat)
    requires i < |ws| - 1 && ws[|ws| - 1].id != ws[i].id
    ensures LastFor(ws, i) <==> LastFor(ws[..|ws| - 1], i)
  {
    var front := ws[..|ws| - 1];
    assert forall j :: 0 <= j < |front| ==> front[j] == ws[j];
  }

  /** The registry is a fold: after any mix of loads and live events, an id is a key exactly
      when some processed event wrote it, and its value is that of the last such event. */
  lemma {:induction false} RegistryIsLastWrite(f: Effect, inputs: seq<Input>, id: string)
    ensures var m, ws := Process(f, inputs), AllWrites(f, inputs);
            && (id in m <==> exists i: nat :: i < |ws| && ws[i].id == id && LastFor(ws, i))
            && (forall i: nat :: i < |ws| && ws[i].id == id && LastFor(ws, i) ==> m[id] == ws[i].address)
  {
    ProcessIsFold(f, inputs);
    FoldLast(AllWrites(f, inputs), id);
  }

  lemma {:induction false} PageWritesFrom(f: Effect, events: seq<Event>, w: Write)
    ensures w in PageWrites(f, events) <==> exists e :: e in events && w in f(e)
  {
    if events != [] {
      var n := |events| - 1;
      PageWritesFrom(f, events[..n], w);
      assert events == events[..n] + [events[n]];
    }
  }

  /** An event is part of the inputs. */
  ghost predicate Fed(inputs: seq<Input>, e: Event)
  {
    exists i: nat :: i < |inputs| && FedBy(inputs[i], e)
  }

  predicate FedBy(input: Input, e: Event)
  {
    match input
    case Page(events) => e in events
    case Live(event) => e == event
  }

  /** Events carry a registration payload exactly when their kind says so. */
  ghost predicate KindsMirror(inputs: seq<Input>)
  {
    forall i: nat, e :: i < |inputs| && FedBy(inputs[i], e) ==> (e.kind == AssetRegistered <==> e.registered.Some?)
  }

  /** Events without a registration payload write nothing. */
  ghost predicate NeedsPayload(f: Effect)
  {
    forall e: Event :: e.registered.None? ==> f(e) == []
  }

  lemma {:induction false} AllWritesFrom(f: Effect, inputs: seq<Input>, w: Write)
    requires NeedsPayload(f) && KindsMirror(inputs)
    ensures w in AllWrites(f, inputs) <==> exists e :: Fed(inputs, e) && w in f(e)
  {
    if inputs != [] {
      var n := |inputs| - 1;
      var front, last := inputs[..n], inputs[n];
      assert KindsMirror(front) by { assert forall i: nat :: i < n ==> inputs[i] == front[i]; }
      AllWritesFrom(f, front, w);
      InputWritesFrom(f, last, w);
      FedLast(inputs);
    }
  }

  lemma {:induction false} FedLast(inputs: seq<Input>)
    requires inputs != []
    ensures forall e :: Fed(inputs, e) <==> Fed(inputs[..|inputs| - 1], e) || FedBy(inputs[|inputs| - 1], e)
  {
    var n := |inputs| - 1;
    forall e ensures Fed(inputs, e) <==> Fed(inputs[..n], e) || FedBy(inputs[n], e) {
      if Fed(inputs[..n], e) {
        var i: nat :| i < n && FedBy(inputs[..n][i], e);
        assert FedBy(inputs[i], e);
      }
      if Fed(inputs, e) {
        var i: nat :| i < |inputs| && FedBy(inputs[i], e);
        if i < n { assert FedBy(inputs[..n][i], e); }
      }
    }
  }

  lemma {:induction false} InputWritesFrom(f: Effect, input: Input, w: Write)
    requires NeedsPayload(f) && forall e :: FedBy(input, e) ==> (e.kind == AssetRegistered <==> e.registered.Some?)
    ensures w in InputWrites(f, input) <==> exists e :: FedBy(input, e) && w in f(e)
  {
    match input
    case Page(events) =>
      PageWritesFrom(f, events, w);
      assert forall e :: FedBy(input, e) <==> e in events;
    case Live(event) =>
      assert FedBy(input, event);
  }

  /** Each asset is only ever registered with one address. */
  ghost predicate SingleAddress(ws: seq<Write>)
  {
    forall i, j :: 0 <= i < |ws| && 0 <= j < |ws| && ws[i].id == ws[j].id ==> ws[i].address == ws[j].address
  }

  /** With one address per asset the map is just the set of writes. */
  lemma {:induction false} FoldSingle(ws: seq<Write>, id: string)
    requires SingleAddress(ws)
    ensures var m := Fold(map[], ws);
            && (id in m <==> exists w :: w in ws && w.id == id)
            && (forall w :: w in ws && w.id == id ==> m[id] == w.address)
  {
    FoldLast(ws, id);
    if exists w :: w in ws && w.id == id {
      var w :| w in ws && w.id == id;
      var k :| 0 <= k < |ws| && ws[k] == w;
      var last := LastIndex(ws, id, k);
      assert forall v :: v in ws && v.id == id ==> v.address == ws[last].address;
    }
  }

  lemma {:induction false} LastIndex(ws: seq<Write>, id: string, k: nat) returns (i: nat)
    requires k < |ws| && ws[k].id == id
    ensures i < |ws| && ws[i].id == id && LastFor(ws, i)
    decreases |ws| - k
  {
    if LastFor(ws, k) {
      i := k;
    } else {
      var j :| k < j < |ws| && ws[j].id == ws[k].id;
      i := LastIndex(ws, id, j);
    }
  }

  lemma {:induction false} SameWritesSameMap(wa: seq<Write>, wb: seq<Write>)
    requires SingleAddress(wa) && forall w :: w in wa <==> w in wb
    ensures Fold(map[], wa) == Fold(map[], wb)
  {
    forall i, j | 0 <= i < |wb| && 0 <= j < |wb| && wb[i].id == wb[j].id ensures wb[i].address == wb[j].address {
      assert wb[i] in wa && wb[j] in wa;
    }
    forall id ensures id in Fold(map[], wa) <==> id in Fold(map[], wb)
              ensures id in Fold(map[], wa) ==> Fold(map[], wa)[id] == Fold(map[], wb)[id] {
      FoldSingle(wa, id);
      FoldSingle(wb, id);
    }
  }

  // ----- the catalog's own effect -----

  lemma {:induction false} EffectIsCatalogId(catalog: seq<Asset>, keccak: Hasher, e: Event, w: Write)
    requires DistinctIds(catalog) && w in WriteOf(catalog, keccak, e)
    ensures exists i :: 0 <= i < |catalog| && catalog[i].id == w.id
    ensures e.registered.Some? && w.address == e.registered.value.aggregator
  {
    HashTableSound(catalog, keccak, |catalog|, Lower(Trim(e.registered.value.assetID)));
  }

  /** A write comes from some event that was fed in. */
  lemma {:induction false} WriteHasEvent(f: Effect, inputs: seq<Input>, w: Write) returns (e: Event)
    requires w in AllWrites(f, inputs)
    ensures Fed(inputs, e) && w in f(e)
  {
    var n := |inputs| - 1;
    if w in AllWrites(f, inputs[..n]) {
      e := WriteHasEvent(f, inputs[..n], w);
      var i: nat :| i < n && FedBy(inputs[..n][i], e);
      assert FedBy(inputs[i], e);
    } else {
      if inputs[n].Page? {
        PageWritesFrom(f, inputs[n].events, w);
        e :| e in inputs[n].events && w in f(e);
      } else {
        e := inputs[n].event;
      }
      assert FedBy(inputs[n], e);
    }
  }

  /** If each asset has a single address and kinds mirror payloads, any order, grouping or
      repetition of the same events as loads or live events gives the same map. */
  lemma {:induction false} OrderDoesNotMatter(catalog: seq<Asset>, keccak: Hasher, a: seq<Input>, b: seq<Input>)
    requires KindsMirror(a) && KindsMirror(b) && forall e :: Fed(a, e) <==> Fed(b, e)
    requires SingleAddress(AllWrites(EffectOf(catalog, keccak), a))
    ensures Process(EffectOf(catalog, keccak), a) == Process(EffectOf(catalog, keccak), b)
  {
    var f := EffectOf(catalog, keccak);
    assert NeedsPayload(f);
    var wa, wb := AllWrites(f, a), AllWrites(f, b);
    forall w ensures w in wa <==> w in wb {
      AllWritesFrom(f, a, w);
      AllWritesFrom(f, b, w);
    }
    SameWritesSameMap(wa, wb);
    ProcessIsFold(f, a);
    ProcessIsFold(f, b);
  }

  // ----- which of several registrations on a page is kept -----

  /** Loading event `e` writes `id`. */
  ghost predicate Registers(catalog: seq<Asset>, keccak: Hasher, e: Event, id: string)
  {
    && e.registered.Some?
    && var found := ByHash(catalog, keccak, e.registered.value.assetID);
       found.Some? && Lower(found.value.id) == id
  }

  /** Loading one event changes the value of an id only if it registers it. */
  lemma {:induction false} RegistersWrites(catalog: seq<Asset>, keccak: Hasher, e: Event, m: map<string, string>,
                                           id: string)
    ensures var after := Fold(m, EffectOf(catalog, keccak)(e));
            if Registers(catalog, keccak, e, id) then after == m[id := e.registered.value.aggregator]
            else (id in after <==> id in m) && (id in m ==> after[id] == m[id])
  {
    if e.registered.Some? {
      var found := ByHash(catalog, keccak, e.registered.value.assetID);
      EffectCases(catalog, keccak, e, found);
      if found.Some? {
        FoldOne(m, Write(Lower(found.value.id), e.registered.value.aggregator));
      }
    }
  }

  /** A live event writes an id if and only if its kind says registration and its payload is
      one of that asset; the startup load looks at the payload alone. */
  lemma {:induction false} LiveRegistersWrites(catalog: seq<Asset>, keccak: Hasher, e: Event, m: map<string, string>,
                                               id: string)
    ensures var after := Fold(m, LiveWrites(EffectOf(catalog, keccak), e));
            if e.kind == AssetRegistered && Registers(catalog, keccak, e, id)
            then after == m[id := e.registered.value.aggregator]
            else (id in after <==> id in m) && (id in m ==> after[id] == m[id])
  {
    RegistersWrites(catalog, keccak, e, m, id);
  }

  /** Event `j` is the last on the page that registers `id`. */
  ghost predicate LastOnPage(catalog: seq<Asset>, keccak: Hasher, events: seq<Event>, id: string, j: nat)
  {
    && j < |events| && Registers(catalog, keccak, events[j], id)
    && forall k :: j < k < |events| ==> !Registers(catalog, keccak, events[k], id)
  }

  ghost predicate FirstOnPage(catalog: seq<Asset>, keccak: Hasher, events: seq<Event>, id: string, i: nat)
  {
    && i < |events| && Registers(catalog, keccak, events[i], id)
    && forall k :: 0 <= k < i ==> !Registers(catalog, keccak, events[k], id)
  }

  lemma {:induction false} PageKeepsLast(catalog: seq<Asset>, keccak: Hasher, m: map<string, string>,
                                         events: seq<Event>, id: string, j: nat)
    requires LastOnPage(catalog, keccak, events, id, j)
    ensures var after := Fold(m, PageWrites(EffectOf(catalog, keccak), events));
            id in after && after[id] == events[j].registered.value.aggregator
  {
    var n, f := |events| - 1, EffectOf(catalog, keccak);
    FoldConcat(m, PageWrites(f, events[..n]), f(events[n]));
    RegistersWrites(catalog, keccak, events[n], Fold(m, PageWrites(f, events[..n])), id);
    if j < n {
      PageKeepsLast(catalog, keccak, m, events[..n], id, j);
    }
  }

  /** The order in which the indexer lists events. */
  ghost predicate NewestFirst(events: seq<Event>)
  {
    forall a, b :: 0 <= a < b < |events| ==> events[a].observedAt >= events[b].observedAt
  }

  /** Of the registrations of one asset on a page, a load onto any map keeps the last, which
      on a page listed newest first is the oldest.  So the registry shows the newest address
      if and only if the first and the last of these registrations carry the same one. */
  lemma {:induction false} LoadKeepsOldest(catalog: seq<Asset>, keccak: Hasher, m: map<string, string>,
                                           events: seq<Event>, id: string, i: nat, j: nat)
    requires NewestFirst(events)
    requires FirstOnPage(catalog, keccak, events, id, i) && LastOnPage(catalog, keccak, events, id, j)
    ensures forall k :: 0 <= k < |events| && Registers(catalog, keccak, events[k], id) ==>
              events[j].observedAt <= events[k].observedAt <= events[i].observedAt
    ensures var after := Fold(m, PageWrites(EffectOf(catalog, keccak), events));
            && id in after && after[id] == events[j].registered.value.aggregator
            && (after[id] == events[i].registered.value.aggregator <==>
                events[i].registered.value.aggregator == events[j].registered.value.aggregator)
  {
    forall k | 0 <= k < |events| && Registers(catalog, keccak, events[k], id)
      ensures events[j].observedAt <= events[k].observedAt <= events[i].observedAt
    {
      BetweenOnPage(catalog, keccak, events, id, i, j, k);
    }
    PageKeepsLast(catalog, keccak, m, events, id, j);
  }

  lemma {:induction false} BetweenOnPage(catalog: seq<Asset>, keccak: Hasher, events: seq<Event>, id: string,
                                         i: nat, j: nat, k: nat)
    requires NewestFirst(events) && k < |events| && Registers(catalog, keccak, events[k], id)
    requires FirstOnPage(catalog, keccak, events, id, i) && LastOnPage(catalog, keccak, events, id, j)
    ensures events[j].observedAt <= events[k].observedAt <= events[i].observedAt
  {
    assert i <= k <= j;
  }

  /** The registration of a ticker at a given time. */
  function RegistrationOf(keccak: Hasher, symbol: string, address: string, observedAt: int): Event
  {
    Event(AssetRegistered, "", observedAt, None, Some(Registration(OnChainId(keccak, symbol), address)))
  }

  /** A page on which the load does not end with the newest address, for any two addresses
      of any catalog entry. */
  lemma {:induction false} OlderAddressWins(catalog: seq<Asset>, keccak: Hasher, m: map<string, string>, k: nat,
                                            newer: string, older: string)
    requires DistinctHashes(catalog, keccak) && k < |catalog| && newer != older
    ensures var page := [RegistrationOf(keccak, catalog[k].symbol, newer, 1),
                         RegistrationOf(keccak, catalog[k].symbol, older, 0)];
            var after := Fold(m, PageWrites(EffectOf(catalog, keccak), page));
            && NewestFirst(page)
            && Lower(catalog[k].id) in after && after[Lower(catalog[k].id)] == older != newer
  {
    var page := [RegistrationOf(keccak, catalog[k].symbol, newer, 1),
                 RegistrationOf(keccak, catalog[k].symbol, older, 0)];
    ByOwnHash(catalog, keccak, k, OnChainId(keccak, catalog[k].symbol));
    assert Registers(catalog, keccak, page[1], Lower(catalog[k].id));
    PageKeepsLast(catalog, keccak, m, page, Lower(catalog[k].id), 1);
  }

  /** Every key of the registry is the id of a catalog entry. */
  lemma {:induction false} KeysAreCatalogIds(catalog: seq<Asset>, keccak: Hasher, inputs: seq<Input>, id: string)
    requires DistinctIds(catalog) && id in Process(EffectOf(catalog, keccak), inputs)
    ensures exists i :: 0 <= i < |catalog| && catalog[i].id == id
  {
    var f := EffectOf(catalog, keccak);
    RegistryIsLastWrite(f, inputs, id);
    var ws := AllWrites(f, inputs);
    var i: nat :| i < |ws| && ws[i].id == id && LastFor(ws, i);
    var e := WriteHasEvent(f, inputs, ws[i]);
    EffectIsCatalogId(catalog, keccak, e, ws[i]);
  }
}
