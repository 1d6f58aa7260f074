// The CoinGecko tool: one endpoint function per API route, each building
// its request URL; a registry of 36 command names; `handle_*` functions
// that read each endpoint's arguments from the keyword arguments with the
// documented defaults; and `run`, which dispatches on `command` and is
// wrapped by the key-rotation retry loop.

module CoinGecko {
  import opened Text
  import opened Values
  import opened Mech
  import opened Params
  import opened KeyRotation

  const Api := "https://api.coingecko.com/api/v3"

  /**
   * The network: `str(requests.get(url, ...).json())` for a URL, or the
   * exception the request or the decoding raises. The demo API key sent in
   * the headers comes from the environment, not from the credential pool,
   * so it is the same on every attempt.
   */
  type Net = string -> Result<string>

  // ---- URL assembly ----

  /** `if flag: params[key] = "true"`. */
  function Flag(key: string, flag: Value): Field<Value>
  {
    Field(key, Truthy(flag), StrV("true"))
  }

  /** `if value is not None: params[key] = str(value)`. */
  function TextIfNotNone(key: string, value: Value): Field<Value>
  {
    Field(key, value != NoneV, StrV(Str(value)))
  }

  /** `if value is not None: params[key] = str(value).lower()`. */
  function LowerIfNotNone(key: string, value: Value): Field<Value>
  {
    Field(key, value != NoneV, StrV(Lower(Str(value))))
  }

  /**
   * `value.replace(",", "%2C")` when the value is not None: None stays
   * None, a string loses its commas (recoverable when it has no `%`), and
   * anything else raises AttributeError.
   */
  function ReplaceIfPresent(value: Value): (r: Result<Value>)
    ensures r.Ok? <==> value == NoneV || value.StrV?
    ensures r.Ok? ==> (r.value == NoneV <==> value == NoneV)
    ensures value.StrV? ==> r.value.StrV? && ',' !in r.value.s
    ensures value.StrV? && '%' !in value.s ==> DecodeCommas(r.value.s) == value.s
    ensures r.Err? ==> r.error == AttributeError(value, "replace")
  {
    if value == NoneV then Ok(NoneV) else ReplaceCommas(value)
  }

  /** The four optional flags and the precision shared by the two simple price endpoints. */
  function PriceOptions(fs: Fields<Value>, marketCap: Value, volume: Value, change: Value,
                        lastUpdated: Value, precision: Value): Fields<Value>
  {
    fs.Add(Flag("include_market_cap", marketCap))
      .Add(Flag("include_24hr_vol", volume))
      .Add(Flag("include_24hr_change", change))
      .Add(Flag("include_last_updated_at", lastUpdated))
      .Add(IfNotNone("precision", precision))
  }

  method PutPriceOptions(ghost fs: Fields<Value>, params: seq<(string, Value)>, marketCap: Value, volume: Value,
                         change: Value, lastUpdated: Value, precision: Value)
    returns (params': seq<(string, Value)>, ghost fs': Fields<Value>)
    requires params == Present(fs)
    ensures fs' == PriceOptions(fs, marketCap, volume, change, lastUpdated, precision)
    ensures params' == Present(fs')
    ensures params' == Present(PriceOptions(fs, marketCap, volume, change, lastUpdated, precision))
  {
    params', fs' := Put(fs, params, Flag("include_market_cap", marketCap));
    params', fs' := Put(fs', params', Flag("include_24hr_vol", volume));
    params', fs' := Put(fs', params', Flag("include_24hr_change", change));
    params', fs' := Put(fs', params', Flag("include_last_updated_at", lastUpdated));
    params', fs' := Put(fs', params', IfNotNone("precision", precision));
  }

  function CoinPriceByIdFields(ids: Value, vsCurrencies: Value, marketCap: Value, volume: Value,
                               change: Value, lastUpdated: Value, precision: Value): Fields<Value>
  {
    PriceOptions(NoFields.Add(Always("ids", ids)).Add(Always("vs_currencies", vsCurrencies)),
                 marketCap, volume, change, lastUpdated, precision)
  }

  function CoinPriceByIdUrl(ids: Value, vsCurrencies: Value, marketCap: Value, volume: Value,
                            change: Value, lastUpdated: Value, precision: Value): string
  {
    Endpoint(Api + "/simple/price",
             Present(CoinPriceByIdFields(ids, vsCurrencies, marketCap, volume, change, lastUpdated, precision)))
  }

  /** `coin_price_by_id`: the URL it requests. */
  method CoinPriceById(ids: Value, vsCurrencies: Value, marketCap: Value, volume: Value,
                       change: Value, lastUpdated: Value, precision: Value) returns (url: string)
    ensures url == CoinPriceByIdUrl(ids, vsCurrencies, marketCap, volume, change, lastUpdated, precision)
  {
    ghost var fs: Fields<Value> := NoFields;
    var params: seq<(string, Value)> := [];
    params, fs := Put(fs, params, Always("ids", ids));
    params, fs := Put(fs, params, Always("vs_currencies", vsCurrencies));
    params, fs := PutPriceOptions(fs, params, marketCap, volume, change, lastUpdated, precision);
    url := Endpoint(Api + "/simple/price", params);
  }

  function TokenPriceFields(contractAddresses: Value, vsCurrencies: Value, marketCap: Value, volume: Value,
                            change: Value, lastUpdated: Value, precision: Value): Fields<Value>
  {
    PriceOptions(NoFields.Add(Always("contract_addresses", contractAddresses)).Add(Always("vs_currencies", vsCurrencies)),
                 marketCap, volume, change, lastUpdated, precision)
  }

  function TokenPriceUrl(id: Value, contractAddresses: Value, vsCurrencies: Value, marketCap: Value, volume: Value,
                         change: Value, lastUpdated: Value, precision: Value): string
  {
    Endpoint(Api + "/simple/token_price/" + Str(id),
             Present(TokenPriceFields(contractAddresses, vsCurrencies, marketCap, volume, change, lastUpdated, precision)))
  }

  /** `coin_price_by_token_address`: the URL it requests. */
  method CoinPriceByTokenAddress(id: Value, contractAddresses: Value, vsCurrencies: Value, marketCap: Value,
                                 volume: Value, change: Value, lastUpdated: Value, precision: Value)
    returns (url: string)
    ensures url == TokenPriceUrl(id, contractAddresses, vsCurrencies, marketCap, volume, change, lastUpdated, precision)
  {
    ghost var fs: Fields<Value> := NoFields;
    var params: seq<(string, Value)> := [];
    params, fs := Put(fs, params, Always("contract_addresses", contractAddresses));
    params, fs := Put(fs, params, Always("vs_currencies", vsCurrencies));
    params, fs := PutPriceOptions(fs, params, marketCap, volume, change, lastUpdated, precision);
    url := Endpoint(Api + "/simple/token_price/" + Str(id), params);
  }

  /** `coins_list`: the option is added only when it is truthy. */
  function CoinsListUrl(includePlatform: Value): string
  {
    if Truthy(includePlatform) then Api + "/coins/list?include_platform=true" else Api + "/coins/list"
  }

  /** The parameters of `coins_list_with_market_data`, with `ids` already comma-encoded. */
  function MarketsFields(vsCurrency: Value, ids: Value, category: Value, order: Value, perPage: Value, page: Value,
                         sparkline: Value, priceChange: Value, locale: Value, precision: Value): Fields<Value>
  {
    NoFields
      .Add(Always("vs_currency", vsCurrency))
      .Add(IfNotNone("ids", ids))
      .Add(IfNotNone("category", category))
      .Add(IfNotNone("order", order))
      .Add(IfNotNone("per_page", perPage))
      .Add(IfNotNone("page", page))
      .Add(Flag("sparkline", sparkline))
      .Add(IfNotNone("price_change_percentage", priceChange))
      .Add(IfNotNone("locale", locale))
      .Add(IfNotNone("precision", precision))
  }

  function MarketsUrl(vsCurrency: Value, ids: Value, category: Value, order: Value, perPage: Value, page: Value,
                      sparkline: Value, priceChange: Value, locale: Value, precision: Value): Result<string>
  {
    match ReplaceIfPresent(ids)
    case Err(e) => Err(e)
    case Ok(encoded) =>
      Ok(Endpoint(Api + "/coins/markets",
                  Present(MarketsFields(vsCurrency, encoded, category, order, perPage, page, sparkline,
                                        priceChange, locale, precision))))
  }

  /** `coins_list_with_market_data`: the URL it requests, or the error that `ids.replace` raises. */
  method CoinsListWithMarketData(vsCurrency: Value, ids: Value, category: Value, order: Value, perPage: Value,
                                 page: Value, sparkline: Value, priceChange: Value, locale: Value, precision: Value)
    returns (url: Result<string>)
    ensures url == MarketsUrl(vsCurrency, ids, category, order, perPage, page, sparkline, priceChange, locale, precision)
  {
    ghost var fs: Fields<Value> := NoFields;
    var params: seq<(string, Value)> := [];
    params, fs := Put(fs, params, Always("vs_currency", vsCurrency));
    var encoded := NoneV;
    if ids != NoneV {
      var replaced := ReplaceCommas(ids);
      if replaced.Err? {
        return Err(replaced.error);
      }
      encoded := replaced.value;
    }
    params, fs := Put(fs, params, IfNotNone("ids", encoded));
    params, fs := Put(fs, params, IfNotNone("category", category));
    params, fs := Put(fs, params, IfNotNone("order", order));
    params, fs := Put(fs, params, IfNotNone("per_page", perPage));
    params, fs := Put(fs, params, IfNotNone("page", page));
    params, fs := Put(fs, params, Flag("sparkline", sparkline));
    params, fs := Put(fs, params, IfNotNone("price_change_percentage", priceChange));
    params, fs := Put(fs, params, IfNotNone("locale", locale));
    params, fs := Put(fs, params, IfNotNone("precision", precision));
    assert ReplaceIfPresent(ids) == Ok(encoded);
    assert fs == MarketsFields(vsCurrency, encoded, category, order, perPage, page, sparkline, priceChange, locale, precision);
    url := Ok(Endpoint(Api + "/coins/markets", params));
  }

  /** The parameters of `coin_data_by_id`: every option, as `str(option).lower()`. */
  function CoinDataParams(localization: Value, tickers: Value, marketData: Value, communityData: Value,
                          developerData: Value, sparkline: Value): seq<(string, Value)>
  {
    [("localization", StrV(Lower(Str(localization)))),
     ("tickers", StrV(Lower(Str(tickers)))),
     ("market_data", StrV(Lower(Str(marketData)))),
     ("community_data", StrV(Lower(Str(communityData)))),
     ("developer_data", StrV(Lower(Str(developerData)))),
     ("sparkline", StrV(Lower(Str(sparkline))))]
  }

  function CoinDataByIdUrl(id: Value, localization: Value, tickers: Value, marketData: Value, communityData: Value,
                           developerData: Value, sparkline: Value): string
  {
    Endpoint(Api + "/coins/" + Str(id),
             CoinDataParams(localization, tickers, marketData, communityData, developerData, sparkline))
  }

  function TickersFields(exchangeIds: Value, exchangeLogo: Value, page: Value, order: Value, depth: Value): Fields<Value>
  {
    NoFields
      .Add(IfNotNone("exchange_ids", exchangeIds))
      .Add(Flag("include_exchange_logo", exchangeLogo))
      .Add(IfNotNone("page", page))
      .Add(IfNotNone("order", order))
      .Add(Flag("depth", depth))
  }

  function CoinTickersUrl(id: Value, exchangeIds: Value, exchangeLogo: Value, page: Value, order: Value,
                          depth: Value): string
  {
    Endpoint(Api + "/coins/" + Str(id) + "/tickers", Present(TickersFields(exchangeIds, exchangeLogo, page, order, depth)))
  }

  /** `coin_tickers_by_id`: the URL it requests. */
  method CoinTickersById(id: Value, exchangeIds: Value, exchangeLogo: Value, page: Value, order: Value, depth: Value)
    returns (url: string)
    ensures url == CoinTickersUrl(id, exchangeIds, exchangeLogo, page, order, depth)
  {
    ghost var fs: Fields<Value> := NoFields;
    var params: seq<(string, Value)> := [];
    params, fs := Put(fs, params, IfNotNone("exchange_ids", exchangeIds));
    params, fs := Put(fs, params, Flag("include_exchange_logo", exchangeLogo));
    params, fs := Put(fs, params, IfNotNone("page", page));
    params, fs := Put(fs, params, IfNotNone("order", order));
    params, fs := Put(fs, params, Flag("depth", depth));
    url := Endpoint(Api + "/coins/" + Str(id) + "/tickers", params);
  }

  function CoinHistoryUrl(id: Value, date: Value, localization: Value): string
  {
    Api + "/coins/" + Str(id) + "/history?date=" + Str(date) + "&localization=" + Lower(Str(localization))
  }

  /** The parameters of the two `..._historical_chart_data_...` endpoints. */
  function ChartFields(vsCurrency: Value, days: Value, interval: Value, precision: Value): Fields<Value>
  {
    NoFields
      .Add(Always("vs_currency", vsCurrency))
      .Add(Always("days", days))
      .Add(IfNotNone("interval", interval))
      .Add(IfNotNone("precision", precision))
  }

  /** `f"{base}?{k1}={v1}&{k2}={v2}"` is the URL of two fixed parameters. */
  lemma TwoFixed(base: string, p: (string, Value), q: (string, Value)) returns (fs: Fields<Value>)
    ensures fs == NoFields.Add(Always(p.0, p.1)).Add(Always(q.0, q.1))
    ensures Present(fs) == [p, q]
    ensures Endpoint(base, Present(fs)) == base + "?" + p.0 + "=" + Str(p.1) + "&" + q.0 + "=" + Str(q.1)
  {
    fs := NoFields.Add(Always(p.0, p.1)).Add(Always(q.0, q.1));
    PresentAdd(NoFields, Always(p.0, p.1));
    PresentAdd(NoFields.Add(Always(p.0, p.1)), Always(q.0, q.1));
    assert Present(fs) == [p] + [q];
    EndpointOne(base, p);
    EndpointSnoc(base, [p], q);
  }

  /**
   * The URL of `coin_historical_chart_data_by_id` and of
   * `coin_historical_chart_data_by_token_address`, which differ only in
   * the base: two fixed parameters, then the optional ones appended.
   */
  method HistoricalChart(base: string, vsCurrency: Value, days: Value, interval: Value, precision: Value)
    returns (url: string)
    ensures url == Endpoint(base, Present(ChartFields(vsCurrency, days, interval, precision)))
  {
    url := base + "?" + "vs_currency" + "=" + Str(vsCurrency) + "&" + "days" + "=" + Str(days);
    ghost var fs := TwoFixed(base, ("vs_currency", vsCurrency), ("days", days));
    url, fs := Extend(fs, base, url, IfNotNone("interval", interval));
    url, fs := Extend(fs, base, url, IfNotNone("precision", precision));
  }

  /** The parameters of the two `..._within_time_range_...` endpoints. */
  function RangeFields(vsCurrency: Value, from: Value, to: Value, precision: Value): Fields<Value>
  {
    NoFields
      .Add(Always("vs_currency", vsCurrency))
      .Add(Always("from", from))
      .Add(Always("to", to))
      .Add(IfNotNone("precision", precision))
  }

  /**
   * The URL of `coin_historical_chart_data_within_time_range_by_id` and of
   * `..._by_token_address`, which differ only in the base.
   */
  method HistoricalRange(base: string, vsCurrency: Value, from: Value, to: Value, precision: Value)
    returns (url: string)
    ensures url == Endpoint(base, Present(RangeFields(vsCurrency, from, to, precision)))
  {
    url := base + "?" + "vs_currency" + "=" + Str(vsCurrency) + "&" + "from" + "=" + Str(from);
    ghost var fs := TwoFixed(base, ("vs_currency", vsCurrency), ("from", from));
    url := url + "&" + "to" + "=" + Str(to);
    EndpointSnoc(base, Present(fs), ("to", to));
    fs := fs.Add(Always("to", to));
    url, fs := Extend(fs, base, url, IfNotNone("precision", precision));
  }

  function OhlcFields(vsCurrency: Value, days: Value, precision: Value): Fields<Value>
  {
    NoFields
      .Add(Always("vs_currency", vsCurrency))
      .Add(Always("days", days))
      .Add(IfNotNone("precision", precision))
  }

  /** `coin_ohlc_chart_by_id`: the URL it requests. */
  method CoinOhlcChartById(id: Value, vsCurrency: Value, days: Value, precision: Value) returns (url: string)
    ensures url == Endpoint(Api + "/coins/" + Str(id) + "/ohlc", Present(OhlcFields(vsCurrency, days, precision)))
  {
    var base := Api + "/coins/" + Str(id) + "/ohlc";
    url := base + "?" + "vs_currency" + "=" + Str(vsCurrency) + "&" + "days" + "=" + Str(days);
    ghost var fs := TwoFixed(base, ("vs_currency", vsCurrency), ("days", days));
    url, fs := Extend(fs, base, url, IfNotNone("precision", precision));
  }

  function ContractBase(id: Value, contractAddress: Value): string
  {
    Api + "/coins/" + Str(id) + "/contract/" + Str(contractAddress)
  }

  function AssetPlatformsUrl(filter: Value): string
  {
    if filter != NoneV then Api + "/asset_platforms?filter=" + Str(filter) else Api + "/asset_platforms"
  }

  /** `coins_categories_list_with_market_data`: the URL it would request (no branch of `run` calls it). */
  function CategoriesWithMarketDataUrl(order: Value): string
  {
    if order != NoneV then Api + "/coins/categories?order=" + Str(order) else Api + "/coins/categories"
  }

  /** The parameters of `exchanges_list_with_data`, each passed through `str`. */
  function ExchangesFields(perPage: Value, page: Value): Fields<Value>
  {
    NoFields.Add(TextIfNotNone("per_page", perPage)).Add(TextIfNotNone("page", page))
  }

  /** `exchanges_list_with_data`: the URL it requests. */
  method ExchangesListWithData(perPage: Value, page: Value) returns (url: string)
    ensures url == Endpoint(Api + "/exchanges", Present(ExchangesFields(perPage, page)))
  {
    ghost var fs: Fields<Value> := NoFields;
    var params: seq<(string, Value)> := [];
    params, fs := Put(fs, params, TextIfNotNone("per_page", perPage));
    params, fs := Put(fs, params, TextIfNotNone("page", page));
    url := Endpoint(Api + "/exchanges", params);
  }

  /** The parameters of `exchange_tickers_by_id`, with `coin_ids` already comma-encoded. */
  function ExchangeTickersFields(coinIds: Value, exchangeLogo: Value, page: Value, depth: Value, order: Value): Fields<Value>
  {
    NoFields
      .Add(IfNotNone("coin_ids", coinIds))
      .Add(LowerIfNotNone("include_exchange_logo", exchangeLogo))
      .Add(TextIfNotNone("page", page))
      .Add(LowerIfNotNone("depth", depth))
      .Add(IfNotNone("order", order))
  }

  function ExchangeTickersUrl(id: Value, coinIds: Value, exchangeLogo: Value, page: Value, depth: Value,
                              order: Value): Result<string>
  {
    match ReplaceIfPresent(coinIds)
    case Err(e) => Err(e)
    case Ok(encoded) =>
      Ok(Endpoint(Api + "/exchanges/" + Str(id) + "/tickers",
                  Present(ExchangeTickersFields(encoded, exchangeLogo, page, depth, order))))
  }

  /** `exchange_tickers_by_id`: the URL it requests, or the error that `coin_ids.replace` raises. */
  method ExchangeTickersById(id: Value, coinIds: Value, exchangeLogo: Value, page: Value, depth: Value, order: Value)
    returns (url: Result<string>)
    ensures url == ExchangeTickersUrl(id, coinIds, exchangeLogo, page, depth, order)
  {
    ghost var fs: Fields<Value> := NoFields;
    var params: seq<(string, Value)> := [];
    var encoded := NoneV;
    if coinIds != NoneV {
      var replaced := ReplaceCommas(coinIds);
      if replaced.Err? {
        return Err(replaced.error);
      }
      encoded := replaced.value;
    }
    params, fs := Put(fs, params, IfNotNone("coin_ids", encoded));
    params, fs := Put(fs, params, LowerIfNotNone("include_exchange_logo", exchangeLogo));
    params, fs := Put(fs, params, TextIfNotNone("page", page));
    params, fs := Put(fs, params, LowerIfNotNone("depth", depth));
    params, fs := Put(fs, params, IfNotNone("order", order));
    assert ReplaceIfPresent(coinIds) == Ok(encoded);
    assert fs == ExchangeTickersFields(encoded, exchangeLogo, page, depth, order);
    url := Ok(Endpoint(Api + "/exchanges/" + Str(id) + "/tickers", params));
  }

  /** The parameters of `derivatives_exchanges_list_with_data` and of `nfts_list`. */
  function PagedFields(order: Value, perPage: Value, page: Value): Fields<Value>
  {
    NoFields.Add(IfNotNone("order", order)).Add(TextIfNotNone("per_page", perPage)).Add(TextIfNotNone("page", page))
  }

  /**
   * The URL of `derivatives_exchanges_list_with_data` and of `nfts_list`,
   * which differ only in the base and in the handler defaults.
   */
  method PagedListing(base: string, order: Value, perPage: Value, page: Value) returns (url: string)
    ensures url == Endpoint(base, Present(PagedFields(order, perPage, page)))
  {
    ghost var fs: Fields<Value> := NoFields;
    var params: seq<(string, Value)> := [];
    params, fs := Put(fs, params, IfNotNone("order", order));
    params, fs := Put(fs, params, TextIfNotNone("per_page", perPage));
    params, fs := Put(fs, params, TextIfNotNone("page", page));
    url := Endpoint(base, params);
  }

  function DerivativesExchangeUrl(id: Value, includeTickers: Value): string
  {
    var url := Api + "/derivatives/exchanges/" + Str(id);
    if includeTickers != NoneV then url + "?include_tickers=" + Str(includeTickers) else url
  }

  // ---- the registry and the dispatcher ----

  /** The keys of `AVAILABLE_COMMANDS`, in insertion order. */
  const Commands: seq<string> := [
    "check_api_server_status",
    "coin_price_by_id",
    "coin_price_by_token_address",
    "supported_currencies_list",
    "coins_list",
    "coins_list_with_market_data",
    "coin_data_by_id",
    "coin_tickers_by_id",
    "coin_historical_data_by_id",
    "coin_historical_chart_data_by_id",
    "coin_historical_chart_data_within_time_range_by_id",
    "coin_ohlc_chart_by_id",
    "coin_data_by_token_address",
    "coin_historical_chart_data_by_token_address",
    "coin_historical_chart_data_within_time_range_by_token_address",
    "asset_platforms_list",
    "coins_categories_list",
    "coins_categories_list_with_market_data",
    "exchanges_list_with_data",
    "exchanges_list",
    "exchange_data_by_id",
    "exchange_tickers_by_id",
    "exchange_volume_chart_by_id",
    "derivatives_tickers_list",
    "derivatives_exchanges_list_with_data",
    "derivatives_exchange_data_by_id",
    "derivatives_exchanges_list",
    "nfts_list",
    "nfts_collection_data_by_id",
    "nfts_collection_data_by_contract_address",
    "btc_to_currency_exchange_rates",
    "search_queries",
    "trending_search_list",
    "crypto_global_market_data",
    "global_defi_market_data",
    "public_companies_holdings"
  ]

  // The `handle_*` functions: each reads its endpoint's arguments from the
  // keyword arguments, with the defaults it documents, and gives the URL the
  // endpoint requests.

  function HandleCoinPriceById(kw: Kwargs): string
  {
    CoinPriceByIdUrl(Get(kw, "ids", NoneV), Get(kw, "vs_currencies", NoneV),
      Get(kw, "include_market_cap", BoolV(false)), Get(kw, "include_24hr_vol", BoolV(false)),
      Get(kw, "include_24hr_change", BoolV(false)), Get(kw, "include_last_updated_at", BoolV(false)),
      Get(kw, "precision", NoneV))
  }

  function HandleCoinPriceByTokenAddress(kw: Kwargs): string
  {
    TokenPriceUrl(Get(kw, "id", NoneV), Get(kw, "contract_addresses", NoneV), Get(kw, "vs_currencies", NoneV),
      Get(kw, "include_market_cap", BoolV(false)), Get(kw, "include_24hr_vol", BoolV(false)),
      Get(kw, "include_24hr_change", BoolV(false)), Get(kw, "include_last_updated_at", BoolV(false)),
      Get(kw, "precision", NoneV))
  }

  function HandleCoinsList(kw: Kwargs): string
  {
    CoinsListUrl(Get(kw, "include_platform", BoolV(false)))
  }

  function HandleCoinsListWithMarketData(kw: Kwargs): Result<string>
  {
    MarketsUrl(Get(kw, "vs_currency", NoneV), Get(kw, "ids", NoneV), Get(kw, "category", NoneV),
      Get(kw, "order", StrV("market_cap_desc")), Get(kw, "per_page", IntV(100)), Get(kw, "page", IntV(1)),
      Get(kw, "sparkline", BoolV(false)), Get(kw, "price_change_percentage", NoneV), Get(kw, "locale", StrV("en")),
      Get(kw, "precision", NoneV))
  }

  function HandleCoinDataById(kw: Kwargs): string
  {
    CoinDataByIdUrl(Get(kw, "id", NoneV), Get(kw, "localization", BoolV(true)), Get(kw, "tickers", BoolV(true)),
      Get(kw, "market_data", BoolV(true)), Get(kw, "community_data", BoolV(true)),
      Get(kw, "developer_data", BoolV(true)), Get(kw, "sparkline", BoolV(false)))
  }

  function HandleCoinTickersById(kw: Kwargs): string
  {
    CoinTickersUrl(Get(kw, "id", NoneV), Get(kw, "exchange_ids", NoneV), Get(kw, "include_exchange_logo", BoolV(false)),
      Get(kw, "page", NoneV), Get(kw, "order", StrV("trust_score_desc")), Get(kw, "depth", BoolV(false)))
  }

  function HandleCoinHistoricalDataById(kw: Kwargs): string
  {
    CoinHistoryUrl(Get(kw, "id", NoneV), Get(kw, "date", NoneV), Get(kw, "localization", BoolV(true)))
  }

  function HandleCoinHistoricalChartDataById(kw: Kwargs): string
  {
    Endpoint(Api + "/coins/" + Str(Get(kw, "id", NoneV)) + "/market_chart",
      Present(ChartFields(Get(kw, "vs_currency", NoneV), Get(kw, "days", NoneV), Get(kw, "interval", NoneV),
                          Get(kw, "precision", NoneV))))
  }

  function HandleCoinHistoricalRangeById(kw: Kwargs): string
  {
    Endpoint(Api + "/coins/" + Str(Get(kw, "id", NoneV)) + "/market_chart/range",
      Present(RangeFields(Get(kw, "vs_currency", NoneV), Get(kw, "from_timestamp", NoneV),
                          Get(kw, "to_timestamp", NoneV), Get(kw, "precision", NoneV))))
  }

  function HandleCoinOhlcChartById(kw: Kwargs): string
  {
    Endpoint(Api + "/coins/" + Str(Get(kw, "id", NoneV)) + "/ohlc",
      Present(OhlcFields(Get(kw, "vs_currency", NoneV), Get(kw, "days", NoneV), Get(kw, "precision", NoneV))))
  }

  function HandleCoinDataByTokenAddress(kw: Kwargs): string
  {
    ContractBase(Get(kw, "id", NoneV), Get(kw, "contract_address", NoneV))
  }

  function HandleCoinHistoricalChartDataByTokenAddress(kw: Kwargs): string
  {
    Endpoint(ContractBase(Get(kw, "id", NoneV), Get(kw, "contract_address", NoneV)) + "/market_chart",
      Present(ChartFields(Get(kw, "vs_currency", NoneV), Get(kw, "days", NoneV), Get(kw, "interval", NoneV),
                          Get(kw, "precision", NoneV))))
  }

  function HandleCoinHistoricalRangeByTokenAddress(kw: Kwargs): string
  {
    Endpoint(ContractBase(Get(kw, "id", NoneV), Get(kw, "contract_address", NoneV)) + "/market_chart/range",
      Present(RangeFields(Get(kw, "vs_currency", NoneV), Get(kw, "from_timestamp", NoneV),
                          Get(kw, "to_timestamp", NoneV), Get(kw, "precision", NoneV))))
  }

  function HandleAssetPlatformsList(kw: Kwargs): string
  {
    AssetPlatformsUrl(Get(kw, "filter", NoneV))
  }

  function HandleExchangesListWithData(kw: Kwargs): string
  {
    Endpoint(Api + "/exchanges", Present(ExchangesFields(Get(kw, "per_page", IntV(100)), Get(kw, "page", IntV(1)))))
  }

  function HandleExchangesList(kw: Kwargs): string
  {
    Api + "/exchanges/list?status=" + Str(Get(kw, "status", StrV("active")))
  }

  function HandleExchangeDataById(kw: Kwargs): string
  {
    Api + "/exchanges/" + Str(Get(kw, "id", NoneV))
  }

  function HandleExchangeTickersById(kw: Kwargs): Result<string>
  {
    ExchangeTickersUrl(Get(kw, "id", NoneV), Get(kw, "coin_ids", NoneV), Get(kw, "include_exchange_logo", BoolV(false)),
      Get(kw, "page", NoneV), Get(kw, "depth", BoolV(false)), Get(kw, "order", StrV("trust_score_desc")))
  }

  function HandleExchangeVolumeChartById(kw: Kwargs): string
  {
    Api + "/exchanges/" + Str(Get(kw, "id", NoneV)) + "/volume_chart?days=" + Str(Get(kw, "days", NoneV))
  }

  function HandleDerivativesExchangesListWithData(kw: Kwargs): string
  {
    Endpoint(Api + "/derivatives/exchanges",
      Present(PagedFields(Get(kw, "order", StrV("open_interest_btc_desc")), Get(kw, "per_page", NoneV), Get(kw, "page", NoneV))))
  }

  function HandleDerivativesExchangeDataById(kw: Kwargs): string
  {
    DerivativesExchangeUrl(Get(kw, "id", NoneV), Get(kw, "include_tickers", NoneV))
  }

  function HandleNftsList(kw: Kwargs): string
  {
    Endpoint(Api + "/nfts/list", Present(PagedFields(Get(kw, "order", NoneV), Get(kw, "per_page", NoneV), Get(kw, "page", NoneV))))
  }

  function HandleNftsCollectionDataById(kw: Kwargs): string
  {
    Api + "/nfts/" + Str(Get(kw, "id", NoneV))
  }

  function HandleNftsCollectionDataByContractAddress(kw: Kwargs): string
  {
    Api + "/nfts/" + Str(Get(kw, "asset_platform_id", NoneV)) + "/contract/" + Str(Get(kw, "contract_address", NoneV))
  }

  function HandleSearchQueries(kw: Kwargs): string
  {
    Api + "/search?query=" + Str(Get(kw, "query", NoneV))
  }

  function HandlePublicCompaniesHoldings(kw: Kwargs): string
  {
    Api + "/companies/public_treasury/" + Str(Get(kw, "coin_id", NoneV))
  }

  /**
   * The `if`/`elif` chain of `run`: the URL the chosen handler requests
   * (or the error its endpoint raises before requesting), or None when the
   * chain has no branch for the name.
   */
  function Request(name: string, kw: Kwargs): Option<Result<string>>
  {
    if name == "check_api_server_status" then Some(Ok(Api + "/ping"))
    else if name == "coin_price_by_id" then Some(Ok(HandleCoinPriceById(kw)))
    else if name == "coin_price_by_token_address" then Some(Ok(HandleCoinPriceByTokenAddress(kw)))
    else if name == "supported_currencies_list" then Some(Ok(Api + "/simple/supported_vs_currencies"))
    else if name == "coins_list" then Some(Ok(HandleCoinsList(kw)))
    else if name == "coins_list_with_market_data" then Some(HandleCoinsListWithMarketData(kw))
    else if name == "coin_data_by_id" then Some(Ok(HandleCoinDataById(kw)))
    else if name == "coin_tickers_by_id" then Some(Ok(HandleCoinTickersById(kw)))
    else if name == "coin_historical_data_by_id" then Some(Ok(HandleCoinHistoricalDataById(kw)))
    else if name == "coin_historical_chart_data_by_id" then Some(Ok(HandleCoinHistoricalChartDataById(kw)))
    else if name == "coin_historical_chart_data_within_time_range_by_id" then Some(Ok(HandleCoinHistoricalRangeById(kw)))
    else if name == "coin_ohlc_chart_by_id" then Some(Ok(HandleCoinOhlcChartById(kw)))
    else if name == "coin_data_by_token_address" then Some(Ok(HandleCoinDataByTokenAddress(kw)))
    else if name == "coin_historical_chart_data_by_token_address" then
      Some(Ok(HandleCoinHistoricalChartDataByTokenAddress(kw)))
    else if name == "coin_historical_chart_data_within_time_range_by_token_address" then
      Some(Ok(HandleCoinHistoricalRangeByTokenAddress(kw)))
    else if name == "asset_platforms_list" then Some(Ok(HandleAssetPlatformsList(kw)))
    else if name == "coins_categories_list" then Some(Ok(Api + "/coins/categories/list"))
    else if name == "exchanges_list_with_data" then Some(Ok(HandleExchangesListWithData(kw)))
    else if name == "exchanges_list" then Some(Ok(HandleExchangesList(kw)))
    else if name == "exchange_data_by_id" then Some(Ok(HandleExchangeDataById(kw)))
    else if name == "exchange_tickers_by_id" then Some(HandleExchangeTickersById(kw))
    else if name == "exchange_volume_chart_by_id" then Some(Ok(HandleExchangeVolumeChartById(kw)))
    else if name == "derivatives_tickers_list" then Some(Ok(Api + "/derivatives"))
    else if name == "derivatives_exchanges_list_with_data" then Some(Ok(HandleDerivativesExchangesListWithData(kw)))
    else if name == "derivatives_exchange_data_by_id" then Some(Ok(HandleDerivativesExchangeDataById(kw)))
    else if name == "derivatives_exchanges_list" then Some(Ok(Api + "/derivatives/exchanges/list"))
    else if name == "nfts_list" then Some(Ok(HandleNftsList(kw)))
    else if name == "nfts_collection_data_by_id" then Some(Ok(HandleNftsCollectionDataById(kw)))
    else if name == "nfts_collection_data_by_contract_address" then Some(Ok(HandleNftsCollectionDataByContractAddress(kw)))
    else if name == "btc_to_currency_exchange_rates" then Some(Ok(Api + "/exchange_rates"))
    else if name == "search_queries" then Some(Ok(HandleSearchQueries(kw)))
    else if name == "trending_search_list" then Some(Ok(Api + "/search/trending"))
    else if name == "crypto_global_market_data" then Some(Ok(Api + "/global"))
    else if name == "global_defi_market_data" then Some(Ok(Api + "/global/decentralized_finance_defi"))
    else if name == "public_companies_holdings" then Some(Ok(HandlePublicCompaniesHoldings(kw)))
    else None
  }

  /**
   * The body of the `try`: the response text of the chosen endpoint. With
   * no branch taken, `str(response)` reads a variable never assigned.
   */
  function Dispatch(name: string, kw: Kwargs, net: Net): Result<string>
  {
    match Request(name, kw)
    case None => Err(UnboundLocal("response"))
    case Some(Err(e)) => Err(e)
    case Some(Ok(url)) => net(url)
  }

  /** The message for a command that is not registered. */
  function UnknownCommand(name: Value): string
  {
    "Command " + Repr(name) + " is not in supported commands: " + TupleRepr(Commands) + "."
  }

  /** `run(**kwargs)` before wrapping. */
  function Run(kw: Kwargs, net: Net): Outcome
  {
    var name := Get(kw, "command", NoneV);
    if name == NoneV then Returned(ErrorResponse("No command has been specified."))
    else if !Hashable(name) then Raised(Unhashable(name))
    else if !(name.StrV? && name.s in Commands) then Returned(ErrorResponse(UnknownCommand(name)))
    else
      match Dispatch(name.s, kw, net)
      case Ok(text) => Returned(Success(text))
      case Err(e) => Returned(ErrorOccurred(e))
  }

  // ---- properties of run ----

  /**
   * Only an unhashable command escapes `run`; everything a handler raises
   * is reported inside a reply whose other three slots are None.
   */
  lemma OnlyUnhashableRaises(kw: Kwargs, net: Net)
    ensures var name := Get(kw, "command", NoneV);
            Run(kw, net).Raised? <==> name != NoneV && !Hashable(name)
    ensures Run(kw, net).Raised? ==> Run(kw, net).error == Unhashable(Get(kw, "command", NoneV))
    ensures Run(kw, net).Returned? ==>
              (Run(kw, net).reply.prompt == NoneV && Run(kw, net).reply.transaction == NoneV
               && Run(kw, net).reply.cost == NoneV)
  {
  }

  /** A registered command replies with the response text, or with the error its handler raised. */
  lemma RegisteredCommandReplies(kw: Kwargs, net: Net, name: string)
    requires Get(kw, "command", NoneV) == StrV(name) && name in Commands
    ensures Dispatch(name, kw, net).Ok? ==> Run(kw, net) == Returned(Success(Dispatch(name, kw, net).value))
    ensures Dispatch(name, kw, net).Err? ==>
              Run(kw, net) == Returned(ErrorResponse("An error occurred: " + Dispatch(name, kw, net).error.message))
  {
  }

  /**
   * An unknown command gets a message quoting it and listing the registry;
   * parsing the listing back gives the registry in order.
   */
  lemma UnknownCommandListsRegistry(kw: Kwargs, net: Net)
    requires var name := Get(kw, "command", NoneV);
             name != NoneV && Hashable(name) && !(name.StrV? && name.s in Commands)
    ensures Run(kw, net) == Returned(ErrorResponse("Command " + Repr(Get(kw, "command", NoneV))
                                                   + " is not in supported commands: " + TupleRepr(Commands) + "."))
    ensures ParseTupleRepr(TupleRepr(Commands)) == Commands
  {
    CommandsPlain();
    ListingRoundTrip(Commands);
  }

  /** The registered names are plain, so `repr` quotes them unchanged. */
  lemma CommandsPlain()
    ensures forall i :: 0 <= i < |Commands| ==> Plain(Commands[i])
  {
    CommandsAreIdentifiers();
    forall i | 0 <= i < |Commands| ensures Plain(Commands[i]) {
      IdentifierIsPlain(Commands[i]);
    }
  }

  /** Every registered name is made of lower-case letters and underscores. */
  lemma CommandsAreIdentifiers()
    ensures forall i :: 0 <= i < |Commands| ==> Identifier(Commands[i])
  {
    IdentifierPair1();
    IdentifierPair2();
    IdentifierPair3();
    IdentifierPair4();
    IdentifierPair5();
    IdentifierPair6();
    IdentifierPair7();
    IdentifierPair8();
    IdentifierPair9();
    IdentifierPair10();
    IdentifierPair11();
    IdentifierPair12();
    IdentifierPair13();
    IdentifierPair14();
    IdentifierPair15();
    IdentifierPair16();
    IdentifierPair17();
    RangeByIdIdentifier();
    RangeByTokenAddressIdentifier();
  }

  // Two names per lemma, so that each proof stays small.

  lemma IdentifierPair1()
    ensures Identifier("check_api_server_status") && Identifier("coin_price_by_id")
  {
  }

  lemma IdentifierPair2()
    ensures Identifier("coin_price_by_token_address") && Identifier("supported_currencies_list")
  {
  }

  lemma IdentifierPair3()
    ensures Identifier("coins_list") && Identifier("coins_list_with_market_data")
  {
  }

  lemma IdentifierPair4()
    ensures Identifier("coin_data_by_id") && Identifier("coin_tickers_by_id")
  {
  }

  lemma IdentifierPair5()
    ensures Identifier("coin_historical_data_by_id") && Identifier("coin_historical_chart_data_by_id")
  {
  }

  lemma IdentifierPair6()
    ensures Identifier("coin_ohlc_chart_by_id") && Identifier("coin_data_by_token_address")
  {
  }

  lemma IdentifierPair7()
    ensures Identifier("coin_historical_chart_data_by_token_address") && Identifier("asset_platforms_list")
  {
  }

  lemma IdentifierPair8()
    ensures Identifier("coins_categories_list") && Identifier("coins_categories_list_with_market_data")
  {
  }

  lemma IdentifierPair9()
    ensures Identifier("exchanges_list_with_data") && Identifier("exchanges_list")
  {
  }

  lemma IdentifierPair10()
    ensures Identifier("exchange_data_by_id") && Identifier("exchange_tickers_by_id")
  {
  }

  lemma IdentifierPair11()
    ensures Identifier("exchange_volume_chart_by_id") && Identifier("derivatives_tickers_list")
  {
  }

  lemma IdentifierPair12()
    ensures Identifier("derivatives_exchanges_list_with_data") && Identifier("derivatives_exchange_data_by_id")
  {
  }

  lemma IdentifierPair13()
    ensures Identifier("derivatives_exchanges_list") && Identifier("nfts_list")
  {
  }

  lemma IdentifierPair14()
    ensures Identifier("nfts_collection_data_by_id") && Identifier("nfts_collection_data_by_contract_address")
  {
  }

  lemma IdentifierPair15()
    ensures Identifier("btc_to_currency_exchange_rates") && Identifier("search_queries")
  {
  }

  lemma IdentifierPair16()
    ensures Identifier("trending_search_list") && Identifier("crypto_global_market_data")
  {
  }

  lemma IdentifierPair17()
    ensures Identifier("global_defi_market_data") && Identifier("public_companies_holdings")
  {
  }

  /** The pieces the two longest names are made of. */
  lemma RangePiecesIdentifiers()
    ensures Identifier("coin_historical_chart_") && Identifier("data_within_time_range")
    ensures Identifier("_by_id") && Identifier("_by_token_address")
  {
  }

  lemma RangeByIdIdentifier()
    ensures Identifier("coin_historical_chart_data_within_time_range_by_id")
  {
    RangePiecesIdentifiers();
    IdentifierConcat("coin_historical_chart_", "data_within_time_range");
    IdentifierConcat("coin_historical_chart_" + "data_within_time_range", "_by_id");
  }

  lemma RangeByTokenAddressIdentifier()
    ensures Identifier("coin_historical_chart_data_within_time_range_by_token_address")
  {
    RangePiecesIdentifiers();
    IdentifierConcat("coin_historical_chart_", "data_within_time_range");
    IdentifierConcat("coin_historical_chart_" + "data_within_time_range", "_by_token_address");
  }

  /**
   * `coins_categories_list_with_market_data` is registered but has no
   * branch: the reply reports the unassigned `response` variable, and it
   * stays the same whatever the network answers for the URL the endpoint
   * would request, which is never fetched.
   */
  lemma CategoriesWithMarketDataFails(kw: Kwargs, net: Net, answer: Result<string>)
    requires Get(kw, "command", NoneV) == StrV("coins_categories_list_with_market_data")
    ensures "coins_categories_list_with_market_data" in Commands
    ensures Request("coins_categories_list_with_market_data", kw) == None
    ensures Run(kw, net) == Returned(ErrorOccurred(UnboundLocal("response")))
    ensures var url := CategoriesWithMarketDataUrl(Get(kw, "order", StrV("market_cap_desc")));
            Run(kw, (u: string) => if u == url then answer else net(u)) == Run(kw, net)
  {
    assert Commands[17] == "coins_categories_list_with_market_data";
  }

  // ---- properties of the URLs ----

  lemma PriceOptionsPresent(fs: Fields<Value>, marketCap: Value, volume: Value, change: Value,
                            lastUpdated: Value, precision: Value)
    ensures Present(PriceOptions(fs, marketCap, volume, change, lastUpdated, precision))
            == Present(fs) + Entry(Flag("include_market_cap", marketCap)) + Entry(Flag("include_24hr_vol", volume))
               + Entry(Flag("include_24hr_change", change)) + Entry(Flag("include_last_updated_at", lastUpdated))
               + Entry(IfNotNone("precision", precision))
  {
    var f1 := fs.Add(Flag("include_market_cap", marketCap));
    var f2 := f1.Add(Flag("include_24hr_vol", volume));
    var f3 := f2.Add(Flag("include_24hr_change", change));
    var f4 := f3.Add(Flag("include_last_updated_at", lastUpdated));
    PresentAdd(fs, Flag("include_market_cap", marketCap));
    PresentAdd(f1, Flag("include_24hr_vol", volume));
    PresentAdd(f2, Flag("include_24hr_change", change));
    PresentAdd(f3, Flag("include_last_updated_at", lastUpdated));
    PresentAdd(f4, IfNotNone("precision", precision));
  }

  /**
   * `coin_price_by_id` always sends the ids and the currencies first, then
   * the optional parameters in their order.
   */
  lemma CoinPriceByIdOptions(ids: Value, vsCurrencies: Value, marketCap: Value, volume: Value,
                             change: Value, lastUpdated: Value, precision: Value)
    ensures Present(CoinPriceByIdFields(ids, vsCurrencies, marketCap, volume, change, lastUpdated, precision))
            == [("ids", ids), ("vs_currencies", vsCurrencies)] + PriceOptionEntries(marketCap, volume, change, lastUpdated, precision)
  {
    var base := NoFields.Add(Always("ids", ids)).Add(Always("vs_currencies", vsCurrencies));
    PresentAdd(NoFields, Always("ids", ids));
    PresentAdd(NoFields.Add(Always("ids", ids)), Always("vs_currencies", vsCurrencies));
    PriceOptionsPresent(base, marketCap, volume, change, lastUpdated, precision);
    var e1, e2, e3 := Entry(Flag("include_market_cap", marketCap)), Entry(Flag("include_24hr_vol", volume)),
                      Entry(Flag("include_24hr_change", change));
    var e4, e5 := Entry(Flag("include_last_updated_at", lastUpdated)), Entry(IfNotNone("precision", precision));
    var p := Present(base);
    assert p + e1 + e2 + e3 + e4 + e5 == p + (e1 + e2 + e3 + e4 + e5);
  }

  /** The optional parameters of the two `simple` price endpoints that are sent. */
  function PriceOptionEntries(marketCap: Value, volume: Value, change: Value, lastUpdated: Value, precision: Value)
    : seq<(string, Value)>
  {
    Entry(Flag("include_market_cap", marketCap)) + Entry(Flag("include_24hr_vol", volume))
    + Entry(Flag("include_24hr_change", change)) + Entry(Flag("include_last_updated_at", lastUpdated))
    + Entry(IfNotNone("precision", precision))
  }

  /**
   * Each optional flag of the price endpoints is sent, as `true`, exactly
   * when it is truthy, and the precision exactly when it is not None.
   */
  lemma PriceOptionsSentWhenSet(marketCap: Value, volume: Value, change: Value, lastUpdated: Value, precision: Value)
    ensures var ps := PriceOptionEntries(marketCap, volume, change, lastUpdated, precision);
            (("include_market_cap", StrV("true")) in ps <==> Truthy(marketCap))
            && (("include_24hr_vol", StrV("true")) in ps <==> Truthy(volume))
            && (("include_24hr_change", StrV("true")) in ps <==> Truthy(change))
            && (("include_last_updated_at", StrV("true")) in ps <==> Truthy(lastUpdated))
            && (("precision", precision) in ps <==> precision != NoneV)
  {
    var ps := PriceOptionEntries(marketCap, volume, change, lastUpdated, precision);
    FlagSent(ps, "include_market_cap", marketCap, volume, change, lastUpdated, precision);
    FlagSent(ps, "include_24hr_vol", marketCap, volume, change, lastUpdated, precision);
    FlagSent(ps, "include_24hr_change", marketCap, volume, change, lastUpdated, precision);
    FlagSent(ps, "include_last_updated_at", marketCap, volume, change, lastUpdated, precision);
    PrecisionSent(marketCap, volume, change, lastUpdated, precision);
  }

  /** One flag of `PriceOptionEntries` at a time: sent exactly when truthy. */
  lemma FlagSent(ps: seq<(string, Value)>, key: string,
                 marketCap: Value, volume: Value, change: Value, lastUpdated: Value, precision: Value)
    requires ps == PriceOptionEntries(marketCap, volume, change, lastUpdated, precision)
    requires key in {"include_market_cap", "include_24hr_vol", "include_24hr_change", "include_last_updated_at"}
    ensures key == "include_market_cap" ==> ((key, StrV("true")) in ps <==> Truthy(marketCap))
    ensures key == "include_24hr_vol" ==> ((key, StrV("true")) in ps <==> Truthy(volume))
    ensures key == "include_24hr_change" ==> ((key, StrV("true")) in ps <==> Truthy(change))
    ensures key == "include_last_updated_at" ==> ((key, StrV("true")) in ps <==> Truthy(lastUpdated))
  {
  }

  lemma PrecisionSent(marketCap: Value, volume: Value, change: Value, lastUpdated: Value, precision: Value)
    ensures (("precision", precision) in PriceOptionEntries(marketCap, volume, change, lastUpdated, precision)
             <==> precision != NoneV)
  {
  }

  /**
   * `coins_list_with_market_data` sends a string `ids` with its commas
   * encoded (and recoverable when it has no `%`), and fails, before any
   * request, on an `ids` that is neither None nor a string.
   */
  lemma MarketsIdsEncoded(vsCurrency: Value, ids: Value, category: Value, order: Value, perPage: Value, page: Value,
                          sparkline: Value, priceChange: Value, locale: Value, precision: Value)
    ensures ids.StrV? ==>
              var ps := Present(MarketsFields(vsCurrency, StrV(EncodeCommas(ids.s)), category, order, perPage, page,
                                              sparkline, priceChange, locale, precision));
              MarketsUrl(vsCurrency, ids, category, order, perPage, page, sparkline, priceChange, locale, precision)
                == Ok(Endpoint(Api + "/coins/markets", ps))
              && |ps| >= 2 && ps[1] == ("ids", StrV(EncodeCommas(ids.s)))
              && ',' !in EncodeCommas(ids.s) && ('%' !in ids.s ==> DecodeCommas(EncodeCommas(ids.s)) == ids.s)
    ensures ids != NoneV && !ids.StrV? ==>
              MarketsUrl(vsCurrency, ids, category, order, perPage, page, sparkline, priceChange, locale, precision)
                == Err(AttributeError(ids, "replace"))
  {
    if ids.StrV? {
      EncodeCommasRoundTrip(ids.s);
      var encoded := StrV(EncodeCommas(ids.s));
      var two := NoFields.Add(Always("vs_currency", vsCurrency)).Add(IfNotNone("ids", encoded));
      var f3 := two.Add(IfNotNone("category", category));
      var f4 := f3.Add(IfNotNone("order", order));
      var f5 := f4.Add(IfNotNone("per_page", perPage));
      var f6 := f5.Add(IfNotNone("page", page));
      var f7 := f6.Add(Flag("sparkline", sparkline));
      var f8 := f7.Add(IfNotNone("price_change_percentage", priceChange));
      var f9 := f8.Add(IfNotNone("locale", locale));
      PresentAdd(NoFields, Always("vs_currency", vsCurrency));
      PresentAdd(NoFields.Add(Always("vs_currency", vsCurrency)), IfNotNone("ids", encoded));
      PresentAdd(two, IfNotNone("category", category));
      PresentAdd(f3, IfNotNone("order", order));
      PresentAdd(f4, IfNotNone("per_page", perPage));
      PresentAdd(f5, IfNotNone("page", page));
      PresentAdd(f6, Flag("sparkline", sparkline));
      PresentAdd(f7, IfNotNone("price_change_percentage", priceChange));
      PresentAdd(f8, IfNotNone("locale", locale));
      PresentAdd(f9, IfNotNone("precision", precision));
      assert Present(two) == [("vs_currency", vsCurrency), ("ids", encoded)];
    }
  }

  /** `coin_data_by_id` renders boolean options as lower-case `true` / `false`. */
  lemma CoinDataByIdBooleans(localization: bool, tickers: bool, marketData: bool, communityData: bool,
                             developerData: bool, sparkline: bool)
    ensures CoinDataParams(BoolV(localization), BoolV(tickers), BoolV(marketData), BoolV(communityData),
                           BoolV(developerData), BoolV(sparkline))
            == [("localization", StrV(if localization then "true" else "false")),
                ("tickers", StrV(if tickers then "true" else "false")),
                ("market_data", StrV(if marketData then "true" else "false")),
                ("community_data", StrV(if communityData then "true" else "false")),
                ("developer_data", StrV(if developerData then "true" else "false")),
                ("sparkline", StrV(if sparkline then "true" else "false"))]
  {
    LowerBoolText(localization);
    LowerBoolText(tickers);
    LowerBoolText(marketData);
    LowerBoolText(communityData);
    LowerBoolText(developerData);
    LowerBoolText(sparkline);
  }

  /**
   * With only `command` and `id` given, `coin_data_by_id` asks for every
   * section except the sparkline.
   */
  lemma CoinDataByIdDefaults(kw: Kwargs)
    requires kw.Keys == {"command", "id"}
    ensures HandleCoinDataById(kw)
            == Endpoint(Api + "/coins/" + Str(kw["id"]),
                        [("localization", StrV("true")), ("tickers", StrV("true")), ("market_data", StrV("true")),
                         ("community_data", StrV("true")), ("developer_data", StrV("true")),
                         ("sparkline", StrV("false"))])
  {
    assert "localization" !in kw && "tickers" !in kw && "market_data" !in kw;
    assert "community_data" !in kw && "developer_data" !in kw && "sparkline" !in kw;
    CoinDataByIdBooleans(true, true, true, true, true, false);
  }

  // ---- the wrapped tool ----

  /** The reply the wrapper makes of one attempt that does not hit a rate limit. */
  function Settle(o: Outcome): Reply
  {
    match o
    case Returned(reply) => reply
    case Raised(e) => SoftReply(e)
  }

  /**
   * `run` never raises a rate-limit error, so the wrapper calls it exactly
   * once and never rotates a key.
   */
  lemma NeverRotates(m: map<string, int>, kw: Kwargs, net: Net, h: seq<string>)
    ensures Execute(m, _ => Run(kw, net), h) == Trace(Replied(Settle(Run(kw, net))), [])
  {
    var call: Call := _ => Run(kw, net);
    match Run(kw, net)
    case Returned(reply) =>
      ReturnedPassesThrough(m, call, h, reply);
    case Raised(e) =>
      OtherErrorIsSoft(m, call, h, e);
  }

  /** The decorated `run`: one attempt, the pool untouched, the reply settled. */
  method Invoke(keys: KeysArg, kw: Kwargs, net: Net) returns (r: MechResult)
    modifies Footprint(keys)
    ensures keys.Absent? ==> r == Raise(KeyError("api_keys"))
    ensures keys == Given(null) ==> r == Raise(AttributeError(NoneV, "max_retries"))
    ensures keys.Given? && keys.pool != null ==>
              keys.pool.rotated == old(keys.pool.rotated) && r == Respond(Settle(Run(kw, net)), keys.pool)
  {
    if keys.Given? && keys.pool != null {
      NeverRotates(keys.pool.limits, kw, net, keys.pool.rotated);
    }
    r := WithKeyRotation(keys, _ => Run(kw, net));
  }
}
