/** The trading page: market cards, the order form kept in step with the selected asset, and the trade history. */
module Trading {
  import opened Js
  import opened Http
  import opened Records

  datatype Side = Buy | Sell

  /** A market card's asset. Prices and changes are whole numbers in this model. */
  datatype Asset = Asset(symbol: string, name: string, price: int, change: int, id: string)

  /** The four cards shown until the first price list arrives, all at price 0. */
  const InitialAssets: seq<Asset> := [
    Asset("BTC/USD", "Bitcoin", 0, 0, "bitcoin"),
    Asset("ETH/USD", "Ethereum", 0, 0, "ethereum"),
    Asset("AAPL", "Apple Inc.", 0, 0, "apple"),
    Asset("GOOGL", "Alphabet Inc.", 0, 0, "google")
  ]

  datatype Call = GetTrades | GetPrices | PlaceTrade(asset: string, side: Side, size: string)

  datatype TradesBody = TradesBody(trades: Option<seq<Trade>>)
  datatype PricesBody = PricesBody(assets: Option<seq<Asset>>)

  /**
   * The page's state. `price` is the text of the price field: `None` for the
   * empty string it starts as, `Some(p)` once it holds the text of price `p`.
   */
  datatype TradingState = TradingState(
    trades: seq<Trade>, loading: bool, orderType: Side, asset: string, size: string,
    price: Option<int>, assets: seq<Asset>, pricesLoading: bool, calls: seq<Call>)

  const Initial: TradingState := TradingState([], false, Buy, "BTC/USD", "", None, InitialAssets, true, [])

  /** `assets.find(a => a.symbol === symbol)`: the first asset with that symbol. */
  function FindBySymbol(assets: seq<Asset>, symbol: string): (r: Option<Asset>)
    ensures r.None? <==> forall k :: 0 <= k < |assets| ==> assets[k].symbol != symbol
    ensures r.Some? ==> exists k :: 0 <= k < |assets| && assets[k] == r.value
                          && r.value.symbol == symbol
                          && forall j :: 0 <= j < k ==> assets[j].symbol != symbol
    decreases |assets|
  {
    if assets == [] then None
    else if assets[0].symbol == symbol then Some(assets[0])
    else
      var r := FindBySymbol(assets[1..], symbol);
      assert forall k :: 1 <= k < |assets| ==> assets[k] == assets[1..][k - 1];
      if r.Some? then
        var k :| 0 <= k < |assets[1..]| && assets[1..][k] == r.value
                 && r.value.symbol == symbol
                 && forall j :: 0 <= j < k ==> assets[1..][j].symbol != symbol;
        assert assets[k + 1] == r.value;
        r
      else r
  }

  /** The effect on `[asset, assets]`: the price field follows the selected asset when the list has it. */
  function SyncStep(s: TradingState): (r: TradingState)
    ensures r.(price := s.price) == s
    ensures FindBySymbol(s.assets, s.asset).Some? ==> r.price == Some(FindBySymbol(s.assets, s.asset).value.price)
    ensures FindBySymbol(s.assets, s.asset).None? ==> r.price == s.price
  {
    var selected := FindBySymbol(s.assets, s.asset);
    if selected.Some? then s.(price := Some(selected.value.price)) else s
  }

  /** Running the effect again without a change in between changes nothing. */
  lemma {:induction false} SyncIdempotent(s: TradingState)
    ensures SyncStep(SyncStep(s)) == SyncStep(s)
  {
    var once := SyncStep(s);
    assert once.assets == s.assets && once.asset == s.asset;
  }

  /** Choosing a symbol from the list puts the price of its first entry in the price field. */
  lemma {:induction false} SelectSetsPrice(s: TradingState, k: nat)
    requires k < |s.assets|
    ensures var r := SyncStep(s.(asset := s.assets[k].symbol));
            r.asset == s.assets[k].symbol && r.price.Some?
            && exists i :: 0 <= i <= k && s.assets[i].symbol == s.assets[k].symbol && r.price == Some(s.assets[i].price)
  {
    var t := s.(asset := s.assets[k].symbol);
    var found := FindBySymbol(t.assets, t.asset);
    assert found.Some?;
    var i :| 0 <= i < |t.assets| && t.assets[i] == found.value && found.value.symbol == t.asset
             && forall j :: 0 <= j < i ==> t.assets[j].symbol != t.asset;
    assert i <= k;
  }

  /** `fetchTrades` up to its request. */
  function BeginTrades(s: TradingState): TradingState
  {
    s.(calls := s.calls + [GetTrades])
  }

  /** `fetchTrades` resolved: an OK body replaces the list, anything else keeps it. */
  function CompleteTrades(s: TradingState, o: Outcome<TradesBody>): (r: TradingState)
    ensures r.(trades := s.trades) == s
    ensures o.Ok? ==> r.trades == o.payload.trades.GetOr([])
    ensures !o.Ok? ==> r == s
  {
    if o.Ok? then s.(trades := o.payload.trades.GetOr([])) else s
  }

  /** `fetchPrices` up to its request. */
  function BeginPrices(s: TradingState): TradingState
  {
    s.(pricesLoading := true, calls := s.calls + [GetPrices])
  }

  /**
   * `fetchPrices` resolved, followed by the price effect. A body without an
   * `assets` list makes the `map` call throw, which is caught like any other
   * failure.
   */
  function CompletePrices(s: TradingState, o: Outcome<PricesBody>): (r: TradingState)
    ensures !r.pricesLoading && r.calls == s.calls && r.asset == s.asset && r.size == s.size
    ensures r.trades == s.trades && r.loading == s.loading && r.orderType == s.orderType
    ensures o.Ok? && o.payload.assets.Some? ==> r.assets == o.payload.assets.value
    ensures !(o.Ok? && o.payload.assets.Some?) ==> r.assets == s.assets
    ensures r == SyncStep(r)
  {
    var loaded := if o.Ok? && o.payload.assets.Some? then s.(assets := o.payload.assets.value) else s;
    var r := SyncStep(loaded.(pricesLoading := false));
    SyncIdempotent(loaded.(pricesLoading := false));
    r
  }

  /** The two effects run after the first render: both fetches start, then the price field is synced. */
  function MountStep(s: TradingState): (r: TradingState)
    ensures r.pricesLoading && r.calls == s.calls + [GetTrades, GetPrices]
    ensures r.assets == s.assets && r.asset == s.asset
  {
    SyncStep(BeginPrices(BeginTrades(s)))
  }

  /**
   * `handleTrade` with outcome `o` of POST /api/trade. An OK response clears
   * the quantity and starts a history reload that the handler does not await.
   */
  function TradeStep(s: TradingState, o: Outcome<()>): (r: TradingState)
    ensures !r.loading && r.trades == s.trades && r.asset == s.asset && r.price == s.price
    ensures r.assets == s.assets && r.pricesLoading == s.pricesLoading && r.orderType == s.orderType
    ensures o.IsOk() ==> r.size == "" && r.calls == s.calls + [PlaceTrade(s.asset, s.orderType, s.size), GetTrades]
    ensures !o.IsOk() ==> r == s.(loading := false, calls := s.calls + [PlaceTrade(s.asset, s.orderType, s.size)])
  {
    var posted := s.(loading := true, calls := s.calls + [PlaceTrade(s.asset, s.orderType, s.size)]);
    var answered := if o.IsOk() then BeginTrades(posted.(size := "")) else posted;
    answered.(loading := false)
  }

  /** `parseFloat(price || '0')` */
  function PriceValue(price: Option<int>): int
  {
    price.GetOr(0)
  }

  /** `disabled={loading || !size || parseFloat(price || '0') === 0 || pricesLoading}` */
  predicate OrderDisabled(s: TradingState)
  {
    s.loading || !Truthy(s.size) || PriceValue(s.price) == 0 || s.pricesLoading
  }

  /** Every initial card is priced at zero, so with its list unreplaced the page can place no order. */
  lemma {:induction false} NoOrderAtInitialPrices(s: TradingState)
    requires s.assets == InitialAssets
    requires s.price.Some? ==> s.price.value == 0
    ensures OrderDisabled(SyncStep(s))
  {
    var found := FindBySymbol(s.assets, s.asset);
    if found.Some? {
      var k :| 0 <= k < |s.assets| && s.assets[k] == found.value && found.value.symbol == s.asset
               && forall j :: 0 <= j < k ==> s.assets[j].symbol != s.asset;
      assert found.value.price == 0;
    }
  }

  /** A failed price load after mount leaves the order button disabled however the form is filled. */
  lemma {:induction false} FailedPricesBlockOrders(o: Outcome<PricesBody>, size: string, side: Side)
    requires !(o.Ok? && o.payload.assets.Some?)
    ensures var r := CompletePrices(MountStep(Initial).(size := size, orderType := side), o);
            r.assets == InitialAssets && OrderDisabled(r)
  {
    var m := MountStep(Initial).(size := size, orderType := side);
    assert m.assets == InitialAssets && m.asset == "BTC/USD";
    assert FindBySymbol(m.assets, m.asset) == Some(InitialAssets[0]);
    assert m.price == Some(0);
    var loaded := m.(pricesLoading := false);
    assert FindBySymbol(loaded.assets, loaded.asset) == Some(InitialAssets[0]);
  }

  /** Once a list prices the selected asset above zero, a typed quantity enables the order button. */
  lemma {:induction false} LoadedPricesEnableOrders(s: TradingState, list: seq<Asset>)
    requires !s.loading && Truthy(s.size)
    requires FindBySymbol(list, s.asset).Some? && FindBySymbol(list, s.asset).value.price > 0
    ensures !OrderDisabled(CompletePrices(s, Ok(PricesBody(Some(list)))))
  {
    var r := CompletePrices(s, Ok(PricesBody(Some(list))));
    assert r.assets == list;
    assert r == SyncStep(r);
  }

  class TradingPage {
    var trades: seq<Trade>
    var loading: bool
    var orderType: Side
    var asset: string
    var size: string
    var price: Option<int>
    var assets: seq<Asset>
    var pricesLoading: bool
    var calls: seq<Call>

    function State(): TradingState
      reads this
    {
      TradingState(trades, loading, orderType, asset, size, price, assets, pricesLoading, calls)
    }

    constructor ()
      ensures State() == Initial
    {
      trades, loading, orderType, asset, size := [], false, Buy, "BTC/USD", "";
      price, assets, pricesLoading, calls := None, InitialAssets, true, [];
    }

    /** The effect on `[asset, assets]`. */
    method SyncPrice()
      modifies this
      ensures State() == SyncStep(old(State()))
    {
      var selected := FindBySymbol(assets, asset);
      if selected.Some? {
        price := Some(selected.value.price);
      }
    }

    method StartFetchTrades()
      modifies this
      ensures State() == BeginTrades(old(State()))
    {
      calls := calls + [GetTrades];
    }

    method FinishFetchTrades(o: Outcome<TradesBody>)
      modifies this
      ensures State() == CompleteTrades(old(State()), o)
    {
      if o.Ok? {
        trades := o.payload.trades.GetOr([]);
      }
    }

    method StartFetchPrices()
      modifies this
      ensures State() == BeginPrices(old(State()))
    {
      pricesLoading := true;
      calls := calls + [GetPrices];
    }

    /** `fetchPrices` resolved; the list it may store re-runs the price effect. */
    method FinishFetchPrices(o: Outcome<PricesBody>)
      modifies this
      ensures State() == CompletePrices(old(State()), o)
    {
      if o.Ok? && o.payload.assets.Some? {
        assets := o.payload.assets.value;
      }
      pricesLoading := false;  // finally
      SyncPrice();
    }

    method Mount()
      modifies this
      ensures State() == MountStep(old(State()))
    {
      StartFetchTrades();
      StartFetchPrices();
      SyncPrice();
    }

    /** A card click or the asset list: the selection changes and the price effect follows. */
    method SetAsset(symbol: string)
      modifies this
      ensures State() == SyncStep(old(State()).(asset := symbol))
    {
      asset := symbol;
      SyncPrice();
    }

    method SetOrderType(side: Side)
      modifies this
      ensures State() == old(State()).(orderType := side)
    {
      orderType := side;
    }

    method SetSize(value: string)
      modifies this
      ensures State() == old(State()).(size := value)
    {
      size := value;
    }

    method HandleTrade(o: Outcome<()>)
      modifies this
      ensures State() == TradeStep(old(State()), o)
    {
      loading := true;
      calls := calls + [PlaceTrade(asset, orderType, size)];
      if o.IsOk() {
        size := "";
        StartFetchTrades();  // not awaited
      }
      loading := false;  // finally
    }
  }
}
