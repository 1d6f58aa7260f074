# Mech tools of `packages/ivan/customs`, modelled in Dafny

Five mech tools, each a Python module whose `run(**kwargs)` is decorated with the same
`with_key_rotation` wrapper:

- `coingecko_api`: 36 registered CoinGecko commands, selected by the `command` keyword argument. Each endpoint
  builds a query string from its optional parameters.
- `coinbase_commerce_request`: six Coinbase Commerce operations, selected by `command`. The charge and checkout
  payloads are built field by field from the truthy arguments only.
- `coinbase_commerce`: eight Coinbase Commerce operations, selected by a lower-cased `prompt` phrase. The charge
  and checkout payloads must be JSON strings.
- `irys_network`: five Irys commands, selected by `prompt`, on a client built from the pool's `irys_wallet`.
- `irys_network_tool`: seven Irys commands. The client is always built without its wallet, so every command
  fails.

The model is split into these modules:

- `Text`: lower-casing, join/split, decimal rendering.
- `Values`: Python values, `kwargs.get`, truthiness, `str`, `repr`, tuple listings and their parsing.
- `Mech`: the reply tuple, exceptions, outcomes and `error_response`.
- `Params`: the parameter dictionaries built by the tools, the `&`-joined query strings and the `%2C` comma
  encoding.
- `KeyRotation`: the wrapper.
- One module per tool: `CoinGecko`, `CoinbaseCommerceRequest`, `CoinbaseCommerce`, `IrysNetwork` and
  `IrysNetworkTool`.

## How the Python is modelled

- **Dictionary-building code.** Code that fills a dictionary with one `if` per option becomes imperative Dafny:
  - `Params.Put`, `Params.Extend` and `Params.PutIfTruthy` are the single steps.
  - The endpoint methods (`CoinGecko.CoinPriceById`, …) and the payload builders
    (`CoinbaseCommerceRequest.ChargePayload`, …) make one step per `if`.
  - Each method is proved equal to a specification function: the present fields, in order, of a snoc list of
    candidate fields.
- **The wrapper.** `with_key_rotation` is modelled in two parts:
  - a specification function, `KeyRotation.Execute`, over the retries that remain per service;
  - a loop method, `KeyRotation.Retry`, on a `KeyPool` class whose `rotate` appends to a history.
- **The wrapped call.** The inner call is an oracle from the rotation history to an outcome. This is what lets a
  retry after `api_keys.rotate(...)` see a different answer.
- **Pure code.** Everything else (`run`, the handlers and the if/elif chains) becomes functions.

## Model

| member | source | states |
|---|---|---|
| KeyRotation.ReturnedPassesThrough | packages/ivan/customs/irys_network/irys_network.py:82-84 | a call that returns is answered once, with nothing rotated |
| KeyRotation.OtherErrorIsSoft | packages/ivan/customs/irys_network/irys_network.py:85-96 | an exception that is not a 429 becomes the reply `(str(e), "", None, None)`, with no retry |
| KeyRotation.ExhaustedReraises | packages/ivan/customs/irys_network/irys_network.py:86-91 | a 429 with no retries left for the service (named by the lower-cased class name) is re-raised |
| KeyRotation.RateLimitRotatesOnce | packages/ivan/customs/irys_network/irys_network.py:86-94 | a 429 with retries left rotates that service once, spends one retry and runs the call again |
| KeyRotation.Execute | packages/ivan/customs/irys_network/irys_network.py:80-96 | `execute()`: the only exception it lets escape is a 429; its attempts and rotations are described by the lemmas around it |
| KeyRotation.ReraisedAfterBudgetSpent | packages/ivan/customs/irys_network/irys_network.py:86-93 | a 429 propagates only after its service has been rotated at least as many times as its budget allowed |
| KeyRotation.RotationsWithinBudget | packages/ivan/customs/irys_network/irys_network.py:90-93 | no service is rotated more often than its `max_retries`; the wrapper always terminates |
| KeyRotation.RotationsAnswerRateLimits | packages/ivan/customs/irys_network/irys_network.py:86-94 | every rotation answers a 429 of that service, raised by the attempt made after the previous rotations |
| KeyRotation.EndsWithLastAttempt | packages/ivan/customs/irys_network/irys_network.py:82-96 | the result is decided by the last attempt, which is made after all the rotations |
| KeyRotation.RecoversAfterRateLimits | packages/ivan/customs/irys_network/irys_network.py:86-94 | k rate limits of one service within its budget, followed by a reply, give that reply after k rotations of the service |
| KeyRotation.PersistentRateLimitReraises | packages/ivan/customs/irys_network/irys_network.py:86-94 | a service that keeps answering 429 is rotated exactly its budget times, and the last 429 is re-raised |
| KeyRotation.KeyPool.MaxRetries | packages/ivan/customs/irys_network/irys_network.py:78 | `max_retries()` reports the pool's per-service budget |
| KeyRotation.KeyPool.Rotate | packages/ivan/customs/irys_network/irys_network.py:93 | `rotate(service)` records the rotation and changes nothing else |
| KeyRotation.Retry | packages/ivan/customs/irys_network/irys_network.py:80-98 | the loop makes the attempts and rotations of `Execute` and ends with its result, the pool appended |
| KeyRotation.WithKeyRotation | packages/ivan/customs/irys_network/irys_network.py:74-101 | a missing `api_keys` raises KeyError and a None pool raises AttributeError; otherwise the result is that of `Retry` |
| Params.Put | packages/ivan/customs/coingecko_api/coingecko_api.py:64-73 | one `if …: params[key] = …` step keeps the dictionary equal to the present fields of the candidates so far |
| Params.TakenIsPresent | packages/ivan/customs/coingecko_api/coingecko_api.py:64-73 | a field whose condition holds is in the dictionary |
| Params.PresentIsTaken | packages/ivan/customs/coingecko_api/coingecko_api.py:64-73 | every entry of the dictionary comes from a field whose condition holds |
| Params.PresentInOrder | packages/ivan/customs/coingecko_api/coingecko_api.py:64-75 | the entries keep the order in which the fields are tested |
| Params.KeepTruthyMembers | packages/ivan/customs/coinbase_commerce_request/coinbase_commerce_request.py:41-58 | a field is in the payload exactly when it is a candidate and truthy |
| Params.KeepTruthyInOrder | packages/ivan/customs/coinbase_commerce_request/coinbase_commerce_request.py:41-58 | the payload keeps the candidates' order |
| Params.PutIfTruthy | packages/ivan/customs/coinbase_commerce_request/coinbase_commerce_request.py:41-42 | one `if value: payload[key] = value` step keeps the payload equal to the truthy candidates so far |
| Params.QueryRoundTrip | packages/ivan/customs/coingecko_api/coingecko_api.py:75 | splitting the `&`-joined `k=str(v)` query gives back every key and rendered value, when no key holds `&` or `=` and no value holds `&` |
| Params.EndpointSnoc | packages/ivan/customs/coingecko_api/coingecko_api.py:75 | adding a parameter appends `&k=v` to the URL |
| Params.EndpointOne | packages/ivan/customs/coingecko_api/coingecko_api.py:75 | a single parameter gives `base?k=v` |
| Params.Extend | packages/ivan/customs/coingecko_api/coingecko_api.py:64-75 | one step of an endpoint method keeps its URL equal to the endpoint of the present fields so far |
| Params.EncodeCommasRoundTrip | packages/ivan/customs/coingecko_api/coingecko_api.py:227 | `replace(",", "%2C")` leaves no comma and is undone by decoding when the text has no `%` |
| Params.ReplaceCommas | packages/ivan/customs/coingecko_api/coingecko_api.py:226-227 | `.replace` succeeds exactly on a string; the result has no comma, equals the input when it had none, and decodes back to it when it has no `%`; any other value raises AttributeError |
| CoinGecko.ReplaceIfPresent | packages/ivan/customs/coingecko_api/coingecko_api.py:226-227 | succeeds exactly on None or a string; the result is None exactly when the input was; a string comes back without commas and decodes back when it has no `%`; anything else raises AttributeError |
| CoinGecko.PutPriceOptions | packages/ivan/customs/coingecko_api/coingecko_api.py:64-73 | the four flags and `precision` are added as the specification function says |
| CoinGecko.CoinPriceById | packages/ivan/customs/coingecko_api/coingecko_api.py:58-75 | the requested URL is the endpoint of `ids`, `vs_currencies` and the present options, in order |
| CoinGecko.CoinPriceByTokenAddress | packages/ivan/customs/coingecko_api/coingecko_api.py:113-131 | the requested URL is `…/token_price/{id}?` plus the present options, in order |
| CoinGecko.CoinsListWithMarketData | packages/ivan/customs/coingecko_api/coingecko_api.py:220-245 | the URL of the present market options, `ids` comma-encoded, or the error of `ids.replace` |
| CoinGecko.CoinTickersById | packages/ivan/customs/coingecko_api/coingecko_api.py:327-342 | the URL of the present ticker options, in order |
| CoinGecko.TwoFixed | packages/ivan/customs/coingecko_api/coingecko_api.py:402-410 | two unconditional parameters give `base?k1=v1&k2=v2` |
| CoinGecko.HistoricalChart | packages/ivan/customs/coingecko_api/coingecko_api.py:402-410 | the chart URL is the endpoint of `vs_currency`, `days` and the present `interval` / `precision` |
| CoinGecko.HistoricalRange | packages/ivan/customs/coingecko_api/coingecko_api.py:440-446 | the range URL is the endpoint of `vs_currency`, `from`, `to` and the present `precision` |
| CoinGecko.CoinOhlcChartById | packages/ivan/customs/coingecko_api/coingecko_api.py:474-480 | the OHLC URL is the endpoint of `vs_currency`, `days` and the present `precision` |
| CoinGecko.ExchangesListWithData | packages/ivan/customs/coingecko_api/coingecko_api.py:679-688 | the URL of the present `per_page` and `page`, each passed through `str` |
| CoinGecko.ExchangeTickersById | packages/ivan/customs/coingecko_api/coingecko_api.py:763-778 | the URL of the present ticker options, `coin_ids` comma-encoded and the booleans lower-cased, or the error of `coin_ids.replace` |
| CoinGecko.PagedListing | packages/ivan/customs/coingecko_api/coingecko_api.py:844-855 | the derivatives and NFT listing URLs of the present `order`, `per_page` and `page` |
| CoinGecko.OnlyUnhashableRaises | packages/ivan/customs/coingecko_api/coingecko_api.py:1258-1345 | `run` raises only when the command is unhashable (the dictionary lookup sits outside the `try`); otherwise it always replies |
| CoinGecko.RegisteredCommandReplies | packages/ivan/customs/coingecko_api/coingecko_api.py:1270-1345 | a registered command replies with `str` of its response, or with "An error occurred: …" of its handler's error |
| CoinGecko.UnknownCommandListsRegistry | packages/ivan/customs/coingecko_api/coingecko_api.py:1264-1268 | an unknown command gets the message quoting it and listing every registered name; the listing parses back to the 36 names in order |
| CoinGecko.CommandsPlain | packages/ivan/customs/coingecko_api/coingecko_api.py:1125-1189 | the registered names need no escaping in `repr` |
| CoinGecko.CommandsAreIdentifiers | packages/ivan/customs/coingecko_api/coingecko_api.py:1125-1189 | every registered name is made of lower-case letters and underscores |
| CoinGecko.CategoriesWithMarketDataFails | packages/ivan/customs/coingecko_api/coingecko_api.py:1270-1345 | `coins_categories_list_with_market_data` is registered but has no branch, so `response` is unbound and its error is the reply, whatever the network answers for the endpoint's URL (lines 641-655) |
| CoinGecko.Run | packages/ivan/customs/coingecko_api/coingecko_api.py:1238-1345 | `run` before wrapping: no command, an unhashable command, an unknown command, or the dispatch inside the `try`; stated by OnlyUnhashableRaises, RegisteredCommandReplies and UnknownCommandListsRegistry |
| CoinGecko.Request | packages/ivan/customs/coingecko_api/coingecko_api.py:1270-1340 | the `if`/`elif` chain: the URL of the handler chosen for each of the 35 names it tests, None for any other name |
| CoinGecko.Dispatch | packages/ivan/customs/coingecko_api/coingecko_api.py:1270-1345 | the body of the `try`: the network's answer for the chosen URL, the endpoint's own error, or the unbound `response` |
| CoinGecko.HandleCoinPriceById | packages/ivan/customs/coingecko_api/coingecko_api.py:1350-1358 | `handle_coin_price_by_id`: reads the endpoint's arguments with the defaults the handler gives them and builds the endpoint's URL |
| CoinGecko.HandleCoinPriceByTokenAddress | packages/ivan/customs/coingecko_api/coingecko_api.py:1360-1369 | `handle_coin_price_by_token_address`: reads the endpoint's arguments with the defaults the handler gives them and builds the endpoint's URL |
| CoinGecko.HandleCoinsList | packages/ivan/customs/coingecko_api/coingecko_api.py:1374-1376 | `handle_coins_list`: reads the endpoint's arguments with the defaults the handler gives them and builds the endpoint's URL |
| CoinGecko.HandleCoinsListWithMarketData | packages/ivan/customs/coingecko_api/coingecko_api.py:1378-1389 | `handle_coins_list_with_market_data`: reads the endpoint's arguments with the defaults the handler gives them and builds the endpoint's URL |
| CoinGecko.HandleCoinDataById | packages/ivan/customs/coingecko_api/coingecko_api.py:1391-1399 | `handle_coin_data_by_id`: reads the endpoint's arguments with the defaults the handler gives them and builds the endpoint's URL |
| CoinGecko.HandleCoinTickersById | packages/ivan/customs/coingecko_api/coingecko_api.py:1401-1408 | `handle_coin_tickers_by_id`: reads the endpoint's arguments with the defaults the handler gives them and builds the endpoint's URL |
| CoinGecko.HandleCoinHistoricalDataById | packages/ivan/customs/coingecko_api/coingecko_api.py:1410-1414 | `handle_coin_historical_data_by_id`: reads the endpoint's arguments with the defaults the handler gives them and builds the endpoint's URL |
| CoinGecko.HandleCoinHistoricalChartDataById | packages/ivan/customs/coingecko_api/coingecko_api.py:1416-1422 | `handle_coin_historical_chart_data_by_id`: reads the endpoint's arguments with the defaults the handler gives them and builds the endpoint's URL |
| CoinGecko.HandleCoinHistoricalRangeById | packages/ivan/customs/coingecko_api/coingecko_api.py:1424-1430 | `handle_coin_historical_chart_data_within_time_range_by_id`: reads the endpoint's arguments with the defaults the handler gives them and builds the endpoint's URL |
| CoinGecko.HandleCoinOhlcChartById | packages/ivan/customs/coingecko_api/coingecko_api.py:1432-1437 | `handle_coin_ohlc_chart_by_id`: reads the endpoint's arguments with the defaults the handler gives them and builds the endpoint's URL |
| CoinGecko.HandleCoinDataByTokenAddress | packages/ivan/customs/coingecko_api/coingecko_api.py:1439-1442 | `handle_coin_data_by_token_address`: reads the endpoint's arguments with the defaults the handler gives them and builds the endpoint's URL |
| CoinGecko.HandleCoinHistoricalChartDataByTokenAddress | packages/ivan/customs/coingecko_api/coingecko_api.py:1444-1451 | `handle_coin_historical_chart_data_by_token_address`: reads the endpoint's arguments with the defaults the handler gives them and builds the endpoint's URL |
| CoinGecko.HandleCoinHistoricalRangeByTokenAddress | packages/ivan/customs/coingecko_api/coingecko_api.py:1453-1460 | `handle_coin_historical_chart_data_within_time_range_by_token_address`: reads the endpoint's arguments with the defaults the handler gives them and builds the endpoint's URL |
| CoinGecko.HandleAssetPlatformsList | packages/ivan/customs/coingecko_api/coingecko_api.py:1462-1464 | `handle_asset_platforms_list`: reads the endpoint's arguments with the defaults the handler gives them and builds the endpoint's URL |
| CoinGecko.HandleExchangesListWithData | packages/ivan/customs/coingecko_api/coingecko_api.py:1469-1472 | `handle_exchanges_list_with_data`: reads the endpoint's arguments with the defaults the handler gives them and builds the endpoint's URL |
| CoinGecko.HandleExchangesList | packages/ivan/customs/coingecko_api/coingecko_api.py:1474-1476 | `handle_exchanges_list`: reads the endpoint's arguments with the defaults the handler gives them and builds the endpoint's URL |
| CoinGecko.HandleExchangeDataById | packages/ivan/customs/coingecko_api/coingecko_api.py:1478-1480 | `handle_exchange_data_by_id`: reads the endpoint's arguments with the defaults the handler gives them and builds the endpoint's URL |
| CoinGecko.HandleExchangeTickersById | packages/ivan/customs/coingecko_api/coingecko_api.py:1482-1489 | `handle_exchange_tickers_by_id`: reads the endpoint's arguments with the defaults the handler gives them and builds the endpoint's URL |
| CoinGecko.HandleExchangeVolumeChartById | packages/ivan/customs/coingecko_api/coingecko_api.py:1491-1494 | `handle_exchange_volume_chart_by_id`: reads the endpoint's arguments with the defaults the handler gives them and builds the endpoint's URL |
| CoinGecko.HandleDerivativesExchangesListWithData | packages/ivan/customs/coingecko_api/coingecko_api.py:1499-1503 | `handle_derivatives_exchanges_list_with_data`: reads the endpoint's arguments with the defaults the handler gives them and builds the endpoint's URL |
| CoinGecko.HandleDerivativesExchangeDataById | packages/ivan/customs/coingecko_api/coingecko_api.py:1505-1508 | `handle_derivatives_exchange_data_by_id`: reads the endpoint's arguments with the defaults the handler gives them and builds the endpoint's URL |
| CoinGecko.HandleNftsList | packages/ivan/customs/coingecko_api/coingecko_api.py:1513-1517 | `handle_nfts_list`: reads the endpoint's arguments with the defaults the handler gives them and builds the endpoint's URL |
| CoinGecko.HandleNftsCollectionDataById | packages/ivan/customs/coingecko_api/coingecko_api.py:1519-1521 | `handle_nfts_collection_data_by_id`: reads the endpoint's arguments with the defaults the handler gives them and builds the endpoint's URL |
| CoinGecko.HandleNftsCollectionDataByContractAddress | packages/ivan/customs/coingecko_api/coingecko_api.py:1523-1526 | `handle_nfts_collection_data_by_contract_address`: reads the endpoint's arguments with the defaults the handler gives them and builds the endpoint's URL |
| CoinGecko.HandleSearchQueries | packages/ivan/customs/coingecko_api/coingecko_api.py:1531-1533 | `handle_search_queries`: reads the endpoint's arguments with the defaults the handler gives them and builds the endpoint's URL |
| CoinGecko.HandlePublicCompaniesHoldings | packages/ivan/customs/coingecko_api/coingecko_api.py:1544-1546 | `handle_public_companies_holdings`: reads the endpoint's arguments with the defaults the handler gives them and builds the endpoint's URL |
| CoinGecko.PriceOptionsPresent | packages/ivan/customs/coingecko_api/coingecko_api.py:64-73 | the price options contribute exactly the truthy flags as `"true"`, then a non-None `precision` |
| CoinGecko.CoinPriceByIdOptions | packages/ivan/customs/coingecko_api/coingecko_api.py:58-75 | the price parameters are `ids`, `vs_currencies`, then the sent options |
| CoinGecko.PriceOptionsSentWhenSet | packages/ivan/customs/coingecko_api/coingecko_api.py:64-73 | each flag is sent exactly when it is truthy, and `precision` exactly when it is not None |
| CoinGecko.FlagSent | packages/ivan/customs/coingecko_api/coingecko_api.py:64-71 | one flag at a time: it is sent as `"true"` exactly when it is truthy |
| CoinGecko.PrecisionSent | packages/ivan/customs/coingecko_api/coingecko_api.py:72-73 | `precision` is sent exactly when it is not None |
| CoinGecko.MarketsIdsEncoded | packages/ivan/customs/coingecko_api/coingecko_api.py:226-227 | a string `ids` is sent comma-encoded; a non-string, non-None `ids` fails in `.replace` |
| CoinGecko.CoinDataByIdBooleans | packages/ivan/customs/coingecko_api/coingecko_api.py:281-292 | boolean options are rendered as lower-case `true` / `false` |
| CoinGecko.CoinDataByIdDefaults | packages/ivan/customs/coingecko_api/coingecko_api.py:1391-1399 | the handler's defaults request every section and no sparkline |
| CoinGecko.NeverRotates | packages/ivan/customs/coingecko_api/coingecko_api.py:1208-1235 | an attempt that does not hit a rate limit is answered once, with nothing rotated |
| CoinGecko.Invoke | packages/ivan/customs/coingecko_api/coingecko_api.py:1208-1237 | the decorated `run` leaves the pool untouched and replies with the settled reply of one attempt |
| CoinbaseCommerceRequest.ChargePayload | packages/ivan/customs/coinbase_commerce_request/coinbase_commerce_request.py:39-58 | the charge payload is exactly the truthy candidate fields, in order |
| CoinbaseCommerceRequest.CheckoutPayload | packages/ivan/customs/coinbase_commerce_request/coinbase_commerce_request.py:155-172 | the checkout payload is exactly the truthy candidate fields, in order |
| CoinbaseCommerceRequest.NoToolSpecified | packages/ivan/customs/coinbase_commerce_request/coinbase_commerce_request.py:314-317 | without `command` the reply is "No tool has been specified.", with nothing rotated |
| CoinbaseCommerceRequest.UnknownToolListsRegistry | packages/ivan/customs/coinbase_commerce_request/coinbase_commerce_request.py:320-324 | an unknown tool gets the message quoting it and listing the six names; the listing parses back to the registry |
| CoinbaseCommerceRequest.ToolsPlain | packages/ivan/customs/coinbase_commerce_request/coinbase_commerce_request.py:239-246 | the registered names need no escaping in `repr` |
| Values.IdentifierIsPlain | packages/ivan/customs/coinbase_commerce_request/coinbase_commerce_request.py:239-246 | a name of lower-case letters and underscores needs no escaping |
| CoinbaseCommerceRequest.ChargeToolNames | packages/ivan/customs/coinbase_commerce_request/coinbase_commerce_request.py:240-242 | the charge tool names are identifiers |
| CoinbaseCommerceRequest.CheckoutToolNames | packages/ivan/customs/coinbase_commerce_request/coinbase_commerce_request.py:243-245 | the checkout tool names are identifiers |
| CoinbaseCommerceRequest.GetAllChargesReplies | packages/ivan/customs/coinbase_commerce_request/coinbase_commerce_request.py:326-342 | `get_all_charges` sends `GET /charges` with the `api_key`, and replies with the response text |
| CoinbaseCommerceRequest.HandlerErrorsReachWrapper | packages/ivan/customs/coinbase_commerce_request/coinbase_commerce_request.py:326-342 | a request error escapes `run`: a 429 with retries left is retried after a rotation, an exhausted one is re-raised, any other error becomes the soft reply |
| CoinbaseCommerceRequest.SameRequestEveryAttempt | packages/ivan/customs/coinbase_commerce_request/coinbase_commerce_request.py:326-339 | every attempt sends the same request, with `api_key` defaulting to `''` |
| CoinbaseCommerceRequest.ChargePayloadExactlyTruthy | packages/ivan/customs/coinbase_commerce_request/coinbase_commerce_request.py:345-365 | through the handler, a charge field is sent exactly when the keyword argument is given and truthy |
| CoinbaseCommerceRequest.CheckoutPayloadExactlyTruthy | packages/ivan/customs/coinbase_commerce_request/coinbase_commerce_request.py:396-415 | through the handler, a checkout field is sent exactly when the keyword argument is given and truthy |
| CoinbaseCommerceRequest.ChargeDefaultsDropped | packages/ivan/customs/coinbase_commerce_request/coinbase_commerce_request.py:345-365 | with no fields given, `create_charge` posts an empty object |
| CoinbaseCommerceRequest.Invoke | packages/ivan/customs/coinbase_commerce_request/coinbase_commerce_request.py:264-293 | the decorated `run` is the wrapper retrying `run` with the same keyword arguments |
| CoinbaseCommerceRequest.Run | packages/ivan/customs/coinbase_commerce_request/coinbase_commerce_request.py:295-342 | `run` before wrapping: no command, an unhashable command, an unknown tool, or the request of the chosen handler, whose errors escape; stated by NoToolSpecified, UnknownToolListsRegistry, GetAllChargesReplies and HandlerErrorsReachWrapper |
| CoinbaseCommerceRequest.Request | packages/ivan/customs/coinbase_commerce_request/coinbase_commerce_request.py:328-339 | the `if`/`elif` chain over the six registered names, each calling its handler with the `api_key` |
| CoinbaseCommerceRequest.HandleCreateCharge | packages/ivan/customs/coinbase_commerce_request/coinbase_commerce_request.py:345-365 | `handle_create_charge`: the nine fields default to `''` and the payload keeps the truthy ones (ChargePayloadExactlyTruthy) |
| CoinbaseCommerceRequest.HandleGetCharge | packages/ivan/customs/coinbase_commerce_request/coinbase_commerce_request.py:368-380 | `handle_get_charge`: `GET /charges/{charge_code_or_charge_id}`, the id defaulting to `''` |
| CoinbaseCommerceRequest.HandleGetAllCharges | packages/ivan/customs/coinbase_commerce_request/coinbase_commerce_request.py:383-393 | `handle_get_all_charges`: `GET /charges` |
| CoinbaseCommerceRequest.HandleCreateNewCheckout | packages/ivan/customs/coinbase_commerce_request/coinbase_commerce_request.py:396-415 | `handle_create_new_checkout`: the eight fields default to `''` and the payload keeps the truthy ones (CheckoutPayloadExactlyTruthy) |
| CoinbaseCommerceRequest.HandleGetAllCheckoutSessions | packages/ivan/customs/coinbase_commerce_request/coinbase_commerce_request.py:418-428 | `handle_get_all_checkout_sessions`: `GET /checkouts` |
| CoinbaseCommerceRequest.HandleGetCheckoutSession | packages/ivan/customs/coinbase_commerce_request/coinbase_commerce_request.py:431-443 | `handle_get_checkout_session`: `GET /checkouts/{checkout_id}`, the id defaulting to `''` |
| CoinbaseCommerce.CheckPayload | packages/ivan/customs/coinbase_commerce/coinbase_commerce.py:26-33 | a payload is accepted exactly when it is a string holding JSON, and is sent re-serialised |
| CoinbaseCommerce.CaseInsensitiveLookup | packages/ivan/customs/coinbase_commerce/coinbase_commerce.py:393-400 | prompts that lower-case alike end alike |
| CoinbaseCommerce.DispatchIgnoresPrompt | packages/ivan/customs/coinbase_commerce/coinbase_commerce.py:406-412 | past the lookup, the value of `prompt` makes no difference |
| CoinbaseCommerce.UnknownToolListsRegistry | packages/ivan/customs/coinbase_commerce/coinbase_commerce.py:400-404 | an unknown phrase gets the message quoting its lower-cased form and listing the registry, which parses back |
| CoinbaseCommerce.ToolsPlain | packages/ivan/customs/coinbase_commerce/coinbase_commerce.py:317-326 | the registered phrases need no escaping in `repr` |
| CoinbaseCommerce.ToolsLowerCase | packages/ivan/customs/coinbase_commerce/coinbase_commerce.py:317-326 | the registered phrases have no upper-case letter |
| CoinbaseCommerce.PhraseIsPlain | packages/ivan/customs/coinbase_commerce/coinbase_commerce.py:317-326 | a phrase of lower-case letters and spaces is plain and lower-case |
| CoinbaseCommerce.ToolsArePhrases | packages/ivan/customs/coinbase_commerce/coinbase_commerce.py:317-326 | every registered key is such a phrase |
| CoinbaseCommerce.PhrasesOfCharges | packages/ivan/customs/coinbase_commerce/coinbase_commerce.py:318-320 | the charge phrases are phrases |
| CoinbaseCommerce.PhrasesOfCheckouts | packages/ivan/customs/coinbase_commerce/coinbase_commerce.py:321-323 | the checkout phrases are phrases |
| CoinbaseCommerce.PhrasesOfEvents | packages/ivan/customs/coinbase_commerce/coinbase_commerce.py:324-325 | the event phrases are phrases |
| CoinbaseCommerce.SelectedUpToCase | packages/ivan/customs/coinbase_commerce/coinbase_commerce.py:394-409 | a prompt selects an operation exactly when it equals the operation's phrase up to case |
| CoinbaseCommerce.MissingPromptIsSoft | packages/ivan/customs/coinbase_commerce/coinbase_commerce.py:393-397 | a missing prompt fails on `.lower()` before the None check, and is replied to softly |
| CoinbaseCommerce.KnownToolReplies | packages/ivan/customs/coinbase_commerce/coinbase_commerce.py:406-412 | a registered operation sends its request with `cc_api_key` (default `''`) and replies with the response text |
| CoinbaseCommerce.HandleUsesKey | packages/ivan/customs/coinbase_commerce/coinbase_commerce.py:223-314 | every handler's request carries the key it was given |
| CoinbaseCommerce.PayloadChecked | packages/ivan/customs/coinbase_commerce/coinbase_commerce.py:234-235 | creating a charge or a checkout posts the checked payload, or raises TypeError / ValueError before sending |
| CoinbaseCommerce.DefaultPayloadIsSoft | packages/ivan/customs/coinbase_commerce/coinbase_commerce.py:234-235 | without `payload`, the empty default fails JSON parsing, and the ValueError is replied to softly |
| CoinbaseCommerce.DuplicateApiKeyRaises | packages/ivan/customs/coinbase_commerce/coinbase_commerce.py:408-409 | an `api_key` keyword argument makes `handler_func(api_key, **kwargs)` raise TypeError |
| CoinbaseCommerce.Invoke | packages/ivan/customs/coinbase_commerce/coinbase_commerce.py:344-373 | the decorated `run` is the wrapper retrying `run` with the same keyword arguments |
| CoinbaseCommerce.Run | packages/ivan/customs/coinbase_commerce/coinbase_commerce.py:375-412 | `run` before wrapping: `.lower()` of the prompt, then the lookup; stated by MissingPromptIsSoft, CaseInsensitiveLookup and SelectedUpToCase |
| CoinbaseCommerce.Dispatch | packages/ivan/customs/coinbase_commerce/coinbase_commerce.py:400-412 | the lookup of the lower-cased name, the call `handler_func(api_key, **kwargs)` and the reply; stated by UnknownToolListsRegistry, KnownToolReplies and DuplicateApiKeyRaises |
| CoinbaseCommerce.Handle | packages/ivan/customs/coinbase_commerce/coinbase_commerce.py:223-314 | the eight `handle_*` functions: the request each sends with the key it is given, the two creating ones after checking their payload; stated by HandleUsesKey and PayloadChecked |
| IrysNetwork.SelectAcceptsCommands | packages/ivan/customs/irys_network/irys_network.py:124-151 | the chain takes a branch exactly for the five command names |
| IrysNetwork.NoCommandSpecified | packages/ivan/customs/irys_network/irys_network.py:106-109 | without `prompt` the reply is "No command has been specified." |
| IrysNetwork.WalletCheckedFirst | packages/ivan/customs/irys_network/irys_network.py:112-116 | without a wallet, every command gets "No wallet has been specified." |
| IrysNetwork.BuildErrorReported | packages/ivan/customs/irys_network/irys_network.py:118-119 | a client that cannot be built makes every command report that error |
| IrysNetwork.AcceptedCommandsExactly | packages/ivan/customs/irys_network/irys_network.py:124-151 | with a wallet and a client, the unknown-command reply comes exactly for names outside the five |
| IrysNetwork.CommentedOutCommandsRejected | packages/ivan/customs/irys_network/irys_network.py:134-141 | `get_balance` and `fund` are rejected as unknown commands |
| IrysNetwork.PromptEchoesSuccess | packages/ivan/customs/irys_network/irys_network.py:154 | the prompt slot is filled exactly when a command succeeds, and then echoes the command |
| IrysNetwork.AddressReply | packages/ivan/customs/irys_network/irys_network.py:124-125 | a successful `address` replies with the client's answer |
| IrysNetwork.UploadArguments | packages/ivan/customs/irys_network/irys_network.py:126-133 | `upload` passes `data`, `tags`, `target` and `anchor`, with a string `tags` replaced by its evaluation |
| IrysNetwork.PriceRequest | packages/ivan/customs/irys_network/irys_network.py:136-138 | `get_price` asks for the price of `int(bytes)` bytes |
| IrysNetwork.PriceNeedsBytes | packages/ivan/customs/irys_network/irys_network.py:136-138 | `get_price` without `bytes` reports the TypeError of `int(None)` |
| IrysNetwork.GatewayUrls | packages/ivan/customs/irys_network/irys_network.py:45-55 | the two downloads fetch `gateway/{tx_id}` and `gateway/tx/{tx_id}` |
| IrysNetwork.NeverRotates | packages/ivan/customs/irys_network/irys_network.py:80-98 | `run` never raises, so the wrapper makes one attempt and rotates nothing |
| IrysNetwork.Invoke | packages/ivan/customs/irys_network/irys_network.py:74-104 | the decorated `run` makes one attempt with the pool's wallet and leaves the pool untouched |
| IrysNetwork.Run | packages/ivan/customs/irys_network/irys_network.py:104-156 | `run` before wrapping: the prompt check, then the `try` whose exceptions are all reported; stated by NoCommandSpecified, NeverRotates and PromptEchoesSuccess |
| IrysNetwork.Guarded | packages/ivan/customs/irys_network/irys_network.py:111-154 | the `try` block: the wallet check, the client construction, then the command chain; stated by WalletCheckedFirst, BuildErrorReported and AcceptedCommandsExactly |
| IrysNetwork.CommandRequest | packages/ivan/customs/irys_network/irys_network.py:124-147 | the client call or gateway download each command makes, with its arguments; stated by AddressReply, UploadArguments, PriceRequest and GatewayUrls |
| IrysNetwork.Perform | packages/ivan/customs/irys_network/irys_network.py:124-154 | a selected command's request sent, its answer replied with the command echoed |
| IrysNetworkTool.NewClient | packages/ivan/customs/irys_network_tool/irys_network_tool.py:10-11 | the constructor accepts exactly one positional argument, `wallet`, and raises TypeError otherwise |
| IrysNetworkTool.SelectAcceptsCommands | packages/ivan/customs/irys_network_tool/irys_network_tool.py:99-116 | the chain takes a branch exactly for the seven command names |
| IrysNetworkTool.NoCommandSpecified | packages/ivan/customs/irys_network_tool/irys_network_tool.py:91-94 | without `prompt` the reply is "No command has been specified." |
| IrysNetworkTool.ConstructionAlwaysFails | packages/ivan/customs/irys_network_tool/irys_network_tool.py:96-97 | `IrysNetworkClient()` always raises the missing-`wallet` TypeError |
| IrysNetworkTool.EveryCommandFails | packages/ivan/customs/irys_network_tool/irys_network_tool.py:96-121 | every command, known or not, replies "An error occurred: " with the construction error |
| IrysNetworkTool.UnknownCommandUnreachable | packages/ivan/customs/irys_network_tool/irys_network_tool.py:113-116 | the unknown-command message is never the reply |
| IrysNetworkTool.PromptSlotAlwaysNone | packages/ivan/customs/irys_network_tool/irys_network_tool.py:88-121 | the prompt slot of the reply is always None |
| IrysNetworkTool.DownloadsHaveNoClientMethod | packages/ivan/customs/irys_network_tool/irys_network_tool.py:144-150 | even on a built client, `get_data` and `get_tx_metadata` raise AttributeError when the keyword arguments hold no `client` |
| IrysNetworkTool.ClientCommandsReply | packages/ivan/customs/irys_network_tool/irys_network_tool.py:119-142 | on a built client, the other five commands reply with `str` of the SDK's answer, or report its error; `upload`, `get_price` and `fund` only when the keyword arguments hold no `client` |
| IrysNetworkTool.DuplicateClientRaises | packages/ivan/customs/irys_network_tool/irys_network_tool.py:100-112 | a `client` keyword argument makes the five `handle_*(client, **kwargs)` calls raise the "got multiple values for argument 'client'" TypeError; `address`, `get_balance` and unknown names ignore it |
| IrysNetworkTool.NeverRotates | packages/ivan/customs/irys_network_tool/irys_network_tool.py:58-85 | `run` never raises, so the wrapper makes one attempt and rotates nothing |
| IrysNetworkTool.Invoke | packages/ivan/customs/irys_network_tool/irys_network_tool.py:58-88 | the decorated `run` replies with one attempt's reply and leaves the pool untouched |
| IrysNetworkTool.Run | packages/ivan/customs/irys_network_tool/irys_network_tool.py:89-121 | `run` before wrapping: the prompt check, then the `try` whose exceptions are all reported; stated by NoCommandSpecified, EveryCommandFails and PromptSlotAlwaysNone |
| IrysNetworkTool.Guarded | packages/ivan/customs/irys_network_tool/irys_network_tool.py:96-119 | the `try` block: `IrysNetworkClient()` and then the chain; stated by ConstructionAlwaysFails |
| IrysNetworkTool.Dispatch | packages/ivan/customs/irys_network_tool/irys_network_tool.py:99-119 | the command chain over seven names, its unknown-command message and the duplicate-`client` TypeError; stated by SelectAcceptsCommands, ClientCommandsReply and DuplicateClientRaises |
| IrysNetworkTool.Handle | packages/ivan/customs/irys_network_tool/irys_network_tool.py:123-150 | the seven `handle_*` functions on a client; stated by DownloadsHaveNoClientMethod and ClientCommandsReply |

## Left out

- **HTTP, the SDK and JSON.** The model does not perform HTTP requests (`http.client`, `requests`), call the Irys
  SDK, or parse JSON.
  - These are parameters: a network oracle from a request to its response text or exception, an SDK oracle, and
    a JSON oracle.
  - `CoinbaseCommerce.DefaultPayloadIsSoft` assumes only that the JSON oracle rejects the empty string.
- **Headers.** Request headers and `X-CC-Version` are not modelled. The API key is kept as a field of the
  request.
- **`eval` and `int()`.**
  - `eval` of upload tags in `irys_network` is the `evalTags` parameter.
  - `int()` of strings, floats and other objects is the `toInt` parameter. Only int, bool and None are modelled.
- **The signing client (`irys_network.py:8-42`).** The client's construction and its calls are the `build` and
  `send` parameters.
- **The dead `client is None` check (`irys_network.py:121-122`).** A constructor never returns None, so this
  branch is not modelled.
- **The module functions of `irys_network_tool` (`get_data` / `get_tx_metadata` at lines 29-39).** Its
  handlers never call them, so they are not modelled.
- **`fund`'s default multiplier.** The multiplier of 1.0 is not modelled because floating point is not
  modelled.
- **Text handling.**
  - `str.lower()` is modelled on ASCII letters only.
  - `repr` of a string is modelled up to U+00FF. It covers quote choice, backslashes, `\t\n\r` and `\xNN`
    escapes; the `\uNNNN` escapes of wider non-printable characters are not modelled.
  - `str()` and `repr()` of objects other than None, bools, ints and strings are texts carried by the value,
    not computed.
- **Exception wording.** Every exception text follows Python 3.11. This includes the `UnboundLocalError`
  ("cannot access local variable …"), the missing-argument `TypeError` of `IrysNetworkClient.__init__()`, and the
  `TypeError` of `int()` ("… or a real number, not '…'"). Older Pythons word some of these differently.
- **Bytes, bytearrays and `str` subclasses.** Keyword-argument values are None, bools, ints, strings, or the
  values a JSON request carries (dicts, lists, floats). None of those has `.lower()` or `.replace()`.
  - `bytes` and `bytearray` do have both, so they are not modelled. For example, a `b"List events"` prompt in
    `coinbase_commerce` would be lower-cased and reported as an unknown tool, not fail on `.lower()`.
  - A `bytes` `ids` in `coingecko_api` would raise TypeError in `.replace(",", "%2C")`, not AttributeError.
  - Subclasses of `str` are not modelled either.
- **The `api_keys` pool.** It is modelled as the `KeyPool` class, with three parts:
  - its per-service budget (`max_retries`);
  - the credential `get(name)` hands out, as a function of the rotation history;
  - its rotation history (`rotate`).

  The pool's own key storage and its other methods are not modelled.
- KeyRotation.Execute: Python's recursion limit is not modelled. The source retries by calling
  `execute()` again inside its `except` block (`irys_network.py:94`, and the same in every tool), so each rotation
  adds stack frames. A budget near the interpreter's limit (1000 frames by default, less whatever the caller has
  already used) would end in a `RecursionError` or its soft reply, not in the re-raised 429. The model takes
  every `max_retries` budget to be well below that limit.
- KeyRotation.Retry: the loop has no depth limit either; it keeps rotating until the budget is spent, as
  `KeyRotation.Execute` does.
- **Concurrency.** Reentrancy and concurrent calls of the wrapper are not modelled.
- **CoinGecko endpoints without parameters.** Endpoints that only fill a fixed path (for example
  `check_api_server_status`, `exchanges_list`, `search_queries`) are modelled as the URL functions the handlers
  use, with no lemma of their own.
