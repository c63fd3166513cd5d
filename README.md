# luno-rust request construction, modelled in Dafny

This project models the request-construction layer of `luno-rust`, a client
library for the Luno exchange REST API. Given typed arguments, this layer
decides three things: the path of the request, its ordered query pairs, and
the form body. Nothing here sends a request.

- `Urls` models `UrlMaker`. A URL is a value made of a scheme, a host, path
  segments and ordered query pairs. `build_url` merges one relative segment
  into the configured base as section 5.2.3 of RFC 3986 describes. The base's
  last segment is dropped, which is the empty one when the base ends in '/'.
  `path_segments_mut().extend` adds whole segments, so an id is exactly one
  segment, except "." and "..", which the url crate skips.
  `query_pairs_mut().append_pair` adds one pair at the end. The endpoints that change a local `url` step by step are methods that
  reassign a local `url`. The single-expression endpoints are functions.
  `url.clone()` is a plain value copy.
- `Market` and `Orders` model the wire enums (`Currency`, `TradingPair`,
  `LimitOrderType`, `MarketOrderType`) and their derived `Display` and
  `EnumString` conversions. They also model `OrderState` and the string it
  becomes in the list-orders filter.
- The builders that `list_orders`, `limit_order`, `market_order`,
  `list_own_trades` and `lightning_send`/`lightning_receive` hand out are
  classes, as are `ListBalancesBuilder` and `CreateQuoteBuilder`. Their
  fields change through `&mut self`. Query builders keep `Option` fields. Their
  `get`/`list` returns the URL it would request: a copy of the stored URL with
  one pair per filter that is set, in the source's order. Form builders keep a
  `map<string, string>`. Each `with_*` overwrites one key. The terminal
  `post`/`send`/`create` returns the `FormPost` it would send (its URL and
  form) and changes nothing. A `Valid()` invariant on the list-orders, order
  and lightning builders says which values they can hold, and every `with_*`
  preserves it. The form builders limit their keys, and `ListOrdersBuilder`
  limits its filter values to wire names. For market orders the invariant
  includes the volume rule: a BUY carries `counter_volume` and no
  `base_volume`, and a SELL the reverse. `CreateQuoteBuilder`,
  `ListTradesBuilder` and `ListBalancesBuilder` have no such invariant: the
  first because no constructor in src/client.rs fixes its seed keys, the
  other two because every value of their typed fields is legal.
- `Client` models the parameter assembly of `LunoClient`: the production base
  `https://api.mybitx.com/api/1/`, `create_account` and `stop_order` forms,
  and the seeded builders. It also holds three usage programs from the
  repository as end-to-end contracts.
- `Credential` models `Credentials::new` and its unit test.
- `Text` and `Numbers` are helpers. `Text.Join` is Rust's `join` on a
  one-character separator, and `Numbers.IntToString` is `to_string` on
  `u64`/`i64`. Each comes with a decoder of the model's own (`Text.Split`,
  `Numbers.ParseInt`) proved to invert it. This is how the model states that
  the server can read a value back.

The source files disagree on some parameter types, so this model picks one typed
interface. Pairs are the `TradingPair` enum. The transaction row bounds are
`i64`, taken from `src/urls.rs:71`; `src/client.rs:138` passes `u64`.
Volumes, prices and amounts are opaque strings. `src/client.rs` calls
`url_maker.ticker(&pair.to_string())`, but `src/urls.rs` takes a
`TradingPair`; the model follows `src/urls.rs`.

Some doc comments in `src/urls.rs` disagree with the code. The model follows
the code:
- `account_name` sends the name as the query pair `name`, not as a path
  segment.
- `transactions` and `pending_transactions` sit under `accounts/`, not
  `account/`.
- `quote_action` appends the id.

## Model

| member | source | states |
|---|---|---|
| `Credential.NewCredentials` | src/credentials.rs:8-13 | The key and the secret are stored as given. There is no precondition, so empty strings are accepted. |
| `Credential.NewCredentialsInjective` | src/credentials.rs:8-13 | Equal credentials come only from an equal key and an equal secret. |
| `Credential.NewCredentialsTest` | src/credentials.rs:17-25 | The unit test: `new("TEST_KEY", "TEST_SECRET")` equals the struct literal. |
| `Market.CurrencyName` | src/market.rs:5-22 | A currency renders as its variant name: three upper-case letters. |
| `Market.CurrencyRoundTrip` | src/market.rs:5-22 | Parsing a currency's name gives back that currency. |
| `Market.ParseCurrency` | src/market.rs:5-22 | The derived `from_str`: a string parses only if it is the name of the currency it parses to. |
| `Market.ParseCurrencyExact` | src/market.rs:5-22 | A string parses as a currency if and only if some currency has that name. |
| `Market.CurrencyNameInjective` | src/market.rs:5-22 | Distinct currencies have distinct names. |
| `Market.PairName` | src/market.rs:24-53 | A pair renders as its variant name: six upper-case letters. |
| `Market.PairRoundTrip` | src/market.rs:24-53 | Parsing the name of any of the 27 pairs gives back that pair. |
| `Market.ParsePairSound` | src/market.rs:24-53 | The derived `from_str` of `TradingPair` (`Market.ParsePair`): a string parses only if it is the name of the pair it parses to. |
| `Market.ParsePairExact` | src/market.rs:24-53 | A string parses as a pair if and only if some pair has that name. |
| `Market.PairNameInjective` | src/market.rs:24-53 | Distinct pairs have distinct names. |
| `Market.ParsingIsCaseSensitive` | src/market.rs:5-53 | Lower-case and mixed-case names are rejected with `VariantNotFound`. |
| `Market.ParseRejectsNonUpperWords` | src/market.rs:5-53 | A string that is not all upper-case letters parses as neither enum. |
| `Orders.LimitOrderTypeName` | src/orders.rs:8-12 | A limit order type renders as "ASK" or "BID". |
| `Orders.ParseLimitOrderType` | src/orders.rs:8-12 | The derived `from_str`: only "ASK" and "BID" parse, each to the type of that name. |
| `Orders.LimitOrderTypeRoundTrip` | src/orders.rs:8-12 | Parsing a rendered limit order type gives it back. |
| `Orders.MarketOrderTypeName` | src/orders.rs:14-18 | A market order type renders as "BUY" or "SELL". |
| `Orders.ParseMarketOrderType` | src/orders.rs:14-18 | The derived `from_str`: only "BUY" and "SELL" parse, each to the type of that name. |
| `Orders.MarketOrderTypeRoundTrip` | src/orders.rs:14-18 | Parsing a rendered market order type gives it back. |
| `Orders.OrderTypeNamesDistinct` | src/orders.rs:8-18 | Both renderings are injective, and lower-case names are rejected. |
| `Orders.StateFilterValue` | src/orders.rs:45-49 | The state filter is "COMPLETE" or "PENDING". |
| `Orders.StateFilterRoundTrip` | src/orders.rs:45-49 | Each state filter value reads back as its state. |
| `Orders.ListOrdersQuery` | src/orders.rs:58-67 | The pairs `get` appends: one per filter that is set, each keyed `state` or `pair`. |
| `Orders.ListOrdersQueryShape` | src/orders.rs:58-67 | None when no filter is set, and `state` before `pair` when both are. Looking up either key gives back its filter. |
| `Orders.ListOrdersBuilder.constructor` | src/client.rs:159-166 | A new builder has no state filter, no pair filter and the given URL. |
| `Orders.ListOrdersBuilder.FilterState` | src/orders.rs:45-51 | `state` becomes the state's wire value, replacing any earlier one. `pair` and the URL are unchanged. |
| `Orders.ListOrdersBuilder.FilterPair` | src/orders.rs:53-56 | `pair` becomes the pair's name, replacing any earlier one. `state` and the URL are unchanged. |
| `Orders.ListOrdersBuilder.Get` | src/orders.rs:58-68 | The request is the stored URL with the filter pairs appended. With no filters it is the stored URL itself. The builder is not changed. |
| `Orders.PostLimitOrderBuilder.constructor` | src/orders.rs:104-108 | The builder holds the given URL and params. |
| `Orders.PostLimitOrderBuilder.WithBaseAccount` | src/orders.rs:111-114 | Only `base_account_id` is inserted or overwritten, and the invariant is kept. |
| `Orders.PostLimitOrderBuilder.WithCounterAccount` | src/orders.rs:116-119 | Only `counter_account_id` is inserted or overwritten, and the invariant is kept. |
| `Orders.PostLimitOrderBuilder.PostOnly` | src/orders.rs:121-124 | `post_only` becomes "true". Calling it a second time changes nothing. |
| `Orders.PostLimitOrderBuilder.Post` | src/orders.rs:126-138 | The form posted is exactly `params`, sent to the stored URL, and nothing is changed. |
| `Orders.PostMarketOrderBuilder.constructor` | src/orders.rs:141-145 | The builder holds the given URL and params. |
| `Orders.PostMarketOrderBuilder.WithBaseAccount` | src/orders.rs:148-151 | Only `base_account_id` is inserted or overwritten. The volume rule still holds. |
| `Orders.PostMarketOrderBuilder.WithCounterAccount` | src/orders.rs:153-156 | Only `counter_account_id` is inserted or overwritten. The volume rule still holds. |
| `Orders.PostMarketOrderBuilder.Post` | src/orders.rs:158-170 | The form posted is exactly `params`, sent to the stored URL, and nothing is changed. |
| `Trades.TradesQuery` | src/trades.rs:42-51 | The pairs `get` appends: one per filter that is set, each keyed `since` or `limit`, with a value of decimal digits only. |
| `Trades.TradesQueryDecodes` | src/trades.rs:42-53 | `since` comes before `limit`. Each value reads back as its filter. |
| `Trades.ListTradesBuilder.constructor` | src/client.rs:246-253 | A new builder has no `since`, no `limit` and the given URL. |
| `Trades.ListTradesBuilder.Since` | src/trades.rs:32-35 | Only `since` is set, and a repeated call overwrites it. |
| `Trades.ListTradesBuilder.Limit` | src/trades.rs:37-40 | Only `limit` is set, and a repeated call overwrites it. |
| `Trades.ListTradesBuilder.Get` | src/trades.rs:42-53 | The request is the stored URL with the `since` and `limit` pairs appended. The builder is not changed. |
| `Accounts.CurrencyNames` | src/accounts.rs:50-53 | The names of the assets, in order, one per asset. |
| `Accounts.AssetsValue` | src/accounts.rs:47-54 | The map, collect and join: three letters per asset and one comma between, so 4n - 1 characters for n > 0 assets. |
| `Accounts.AssetsQuery` | src/accounts.rs:46-56 | No pair without the filter. With it, exactly one `assets` pair, which reads back as the filter. |
| `Accounts.AssetsValueDecodes` | src/accounts.rs:47-56 | The joined value reads back as exactly the assets in their order. It is "" exactly for an empty list. |
| `Accounts.AssetsValueCommas` | src/accounts.rs:50-54 | For n > 0 assets the value has n - 1 commas, and no comma at either end. |
| `Accounts.ListBalancesBuilder.constructor` | src/accounts.rs:33-37 | A new builder has no asset filter. |
| `Accounts.ListBalancesBuilder.WithAssets` | src/accounts.rs:40-43 | `assets` becomes the given list, replacing any earlier one. |
| `Accounts.ListBalancesBuilder.List` | src/accounts.rs:45-56 | With no filter, no pair is added. With a filter, exactly one `assets` pair is added, even for an empty list. The builder is not changed. |
| `Lightning.LightningSendBuilder.constructor` | src/lightning.rs:18-22 | The builder holds the given URL and params. |
| `Lightning.LightningSendBuilder.WithCurrency` | src/lightning.rs:25-28 | `currency` becomes the currency's name, and every other key is unchanged. |
| `Lightning.LightningSendBuilder.WithDescription` | src/lightning.rs:30-33 | Only `description` is set or overwritten. |
| `Lightning.LightningSendBuilder.WithExternalId` | src/lightning.rs:35-38 | Only `external_id` is set or overwritten. |
| `Lightning.LightningSendBuilder.Send` | src/lightning.rs:40-54 | The form posted is exactly `params`, and nothing is changed. |
| `Lightning.LightningReceiveBuilder.constructor` | src/lightning.rs:57-61 | The builder holds the given URL and params. |
| `Lightning.LightningReceiveBuilder.WithCurrency` | src/lightning.rs:64-67 | `currency` becomes the currency's name, and every other key is unchanged. |
| `Lightning.LightningReceiveBuilder.WithDescription` | src/lightning.rs:69-72 | Only `description` is set or overwritten. |
| `Lightning.LightningReceiveBuilder.WithExpiresAt` | src/lightning.rs:74-77 | The seeded `expires_at` is replaced by the decimal string of the new time, which reads back as that time. |
| `Lightning.LightningReceiveBuilder.Create` | src/lightning.rs:79-93 | The form posted is exactly `params`, and nothing is changed. |
| `Quotes.CreateQuoteBuilder.constructor` | src/quotes.rs:23-27 | The builder holds the given URL and params. |
| `Quotes.CreateQuoteBuilder.WithBaseAccount` | src/quotes.rs:30-33 | Only `base_account_id` is set. A repeat overwrites it without adding a key. |
| `Quotes.CreateQuoteBuilder.WithCounterAccount` | src/quotes.rs:35-38 | Only `counter_account_id` is set. A repeat overwrites it without adding a key. |
| `Quotes.CreateQuoteBuilder.Post` | src/quotes.rs:40-56 | The form posted is exactly `params`. It takes `&mut self` but changes nothing. |
| `Numbers.IntToString` | src/urls.rs:76-78 | `to_string` gives a non-empty string of digits, with a '-' exactly for negative values. |
| `Numbers.IntToStringRoundTrip` | src/trades.rs:44-51 | A rendered integer reads back as itself. |
| `Numbers.IntToStringInjective` | src/urls.rs:76-78 | Distinct integers render to distinct strings. |
| `Numbers.IntToStringCanonical` | src/trades.rs:46 | The rendering has no '+', no "-0" and no leading zeros. |
| `Urls.Url.AppendPair` | src/urls.rs:22 | `query_pairs_mut().append_pair`: the pair is added after the existing ones, and the scheme, host and path are unchanged. |
| `Urls.LookupAfterAppend` | src/urls.rs:22 | After an append, a reader that takes the first pair per key still sees the earlier value. The new value is found only for a new key. |
| `Urls.Url.ExtendSegments` | src/urls.rs:118-119 | `path_segments_mut().extend`: the new path is the old one followed by the given segments without "." and "..". The scheme, host and query are unchanged. |
| `Urls.Undotted` | src/urls.rs:118-119 | The segments `extend` keeps: none is "." or "..", and a list without dot segments is kept whole. |
| `Urls.UndottedSingle` | src/urls.rs:118-119 | One segment is kept exactly when it is not "." or "..". |
| `Urls.UndottedAppend` | src/urls.rs:118-119 | Filtering distributes over concatenation, so every other segment is kept, in its order. |
| `Urls.ParseUrl` | src/urls.rs:9-12 | Every URL it accepts is an http(s) base with a plain domain host and at least one segment of unreserved characters. No segment is a dot segment, and the query is empty. The host is dot-separated lower-case labels: each starts with a letter, ends with a letter or digit, and holds no "--". |
| `Urls.ParseRender` | src/urls.rs:9-12 | Parsing the text of a base URL gives that URL back. |
| `Urls.RenderParse` | src/urls.rs:9-12 | Writing out a parsed URL reproduces its text, with a '/' added when the text had no path. |
| `Urls.NewUrlMaker` | src/urls.rs:9-12 | Construction fails, which is the `unwrap` panic, exactly when the base does not parse. Otherwise the maker holds the parsed base. |
| `Urls.UnparseableBaseFails` | src/urls.rs:9-12 | A configuration error for a base without a scheme ("api.mybitx.com/api/1/"), with an empty host ("https://"), with a space in the host ("https://a b/"), with a non-numeric port ("https://h:x/"), with an invalid Punycode label ("https://xn--a/") or with a host ending in a number that is no IPv4 address ("https://a.1/"). The url crate rejects all six. |
| `Urls.UrlMaker.BuildUrl` | src/urls.rs:15-17 | The result keeps the base's origin and all its segments but the last, which is replaced by the path. The query is empty. |
| `Urls.BaseWithoutTrailingSlash` | src/urls.rs:15-17 | Without a trailing '/', the base's last segment "1" would be replaced by the endpoint. |
| `Urls.UrlMaker.Ticker` | src/urls.rs:20-24 | The path is `…/ticker`, and the query is exactly one pair, `pair` with the pair's name. |
| `Urls.UrlMaker.Tickers` | src/urls.rs:27-29 | The path is `…/tickers`, and the query is empty. |
| `Urls.UrlMaker.OrderbookTop` | src/urls.rs:32-36 | The path is `…/orderbook_top`, and the query is exactly one pair, `pair` with the pair's name. |
| `Urls.UrlMaker.Orderbook` | src/urls.rs:39-43 | The path is `…/orderbook`, and the query is exactly one pair, `pair` with the pair's name. |
| `Urls.UrlMaker.Trades` | src/urls.rs:46-50 | The path is `…/trades`, and the query is exactly one pair, `pair` with the pair's name. |
| `Urls.UrlMaker.Accounts` | src/urls.rs:53-55 | The path is `…/accounts`, and the query is empty. |
| `Urls.UrlMaker.AccountName` | src/urls.rs:58-63 | The path is `…/accounts/ID` with the id as one segment, or `…/accounts` when the id is "." or "..". The query is exactly one pair, `name`. |
| `Urls.UrlMaker.Balance` | src/urls.rs:66-68 | The path is `…/balance`, and the query is empty. |
| `Urls.UrlMaker.Transactions` | src/urls.rs:71-80 | The path is `…/accounts/ID/transactions`, with ID left out when it is "." or "..". The query is exactly `min_row` then `max_row`, as decimal strings. |
| `Urls.UrlMaker.PendingTransactions` | src/urls.rs:83-89 | The path is `…/accounts/ID/pending`, with ID left out when it is "." or "..". The query is empty. |
| `Urls.UrlMaker.Beneficiaries` | src/urls.rs:92-94 | The path is `…/beneficiaries`, and the query is empty. |
| `Urls.UrlMaker.ListOrders` | src/urls.rs:97-99 | The path is `…/listorders`, and the query is empty. |
| `Urls.UrlMaker.PostOrder` | src/urls.rs:102-104 | The path is `…/postorder`, and the query is empty. |
| `Urls.UrlMaker.MarketOrder` | src/urls.rs:107-109 | The path is `…/marketorder`, and the query is empty. |
| `Urls.UrlMaker.StopOrder` | src/urls.rs:112-114 | The path is `…/stoporder`, and the query is empty. |
| `Urls.UrlMaker.Orders` | src/urls.rs:117-121 | The path is `…/orders/ID`, with the id as exactly one segment even if it holds a '/'. It is `…/orders` when the id is "." or "..". |
| `Urls.UrlMaker.ListTrades` | src/urls.rs:124-128 | The path is `…/listtrades`, and the query is exactly one pair, `pair` with the pair's name. |
| `Urls.UrlMaker.FeeInfo` | src/urls.rs:131-135 | The path is `…/fee_info`, and the query is exactly one pair, `pair` with the pair's name. |
| `Urls.UrlMaker.Quotes` | src/urls.rs:138-140 | The path is `…/quotes`, and the query is empty. |
| `Urls.UrlMaker.QuoteAction` | src/urls.rs:143-147 | The path is `…/quotes/ID`, with the id as one segment, or `…/quotes` when the id is "." or "..". |
| `Client.ApiBaseParses` | src/client.rs:16 | The production base parses, to host api.mybitx.com and segments api, 1 and "". Its endpoints therefore sit under /api/1/. |
| `Client.NewClient` | src/client.rs:26-36 | The client holds the given credentials and the production base. Construction cannot fail. |
| `Client.LunoClient.CreateAccount` | src/client.rs:108-116 | The request goes to `accounts` with a form of exactly `currency` (the currency's name) and `name`. |
| `Client.LunoClient.ListOrders` | src/client.rs:159-166 | The builder goes to `listorders`, with `state` and `pair` both None. |
| `Client.LunoClient.LimitOrder` | src/client.rs:169-186 | The builder goes to `postorder`, seeded with exactly `pair`, `type`, `volume` and `price`. |
| `Client.LunoClient.MarketOrder` | src/client.rs:196-214 | The builder goes to `marketorder`. A BUY is seeded with exactly `pair`, `type` and `counter_volume`; a SELL with exactly `pair`, `type` and `base_volume`. |
| `Client.LunoClient.StopOrder` | src/client.rs:217-220 | The request goes to `stoporder` with a form of exactly `order_id`. |
| `Client.LunoClient.ListOwnTrades` | src/client.rs:246-253 | The builder goes to `listtrades?pair=NAME`, with `since` and `limit` both None. |
| `Client.LunoClient.LightningSend` | src/client.rs:264-272 | The builder is seeded with exactly `payment_request`. |
| `Client.LunoClient.LightningReceive` | src/client.rs:274-287 | The builder is seeded with exactly `amount` and `expires_at`. `expires_at` is the expiry's `to_string`, which reads back as the expiry. |
| `Client.PostOnlyLimitOrder` | examples/limit-order.rs:10-14 | `limit_order(XBTZAR, ASK, v, p).post_only().post()` posts exactly pair, type, volume, price and `post_only=true` to `postorder`. |
| `Client.BuyMarketOrder` | examples/market-order.rs:10-13 | `market_order(XBTZAR, BUY, v).post()` posts `counter_volume=v` and no `base_volume`. |
| `Client.CompletedOrders` | src/bin/list-orders.rs:9-12 | `list_orders().filter_state(Complete).get()` requests `listorders?state=COMPLETE`. |

## Left out

- HTTP transport is not modelled: `LunoClient::get`, `post_json` and every `.post(..).basic_auth(..).form(..).send()` chain. A terminal builder call returns the URL or `FormPost` it would send. Basic authentication and the `http` handle are not modelled either.
- Response deserialization is not modelled. This covers `Order`, `OrderList`, `PostOrderResponse`, `StopOrderResponse`, `Trade`, `TradeList`, `Ticker`, `Orderbook`, `Quote`, `Balance`, `Account`, the lightning responses, src/transactions.rs and src/beneficiaries.rs. These are decoded by serde, a foreign library.
- The client's read operations (`get_ticker`, `get_tickers`, `get_orderbook`, `get_orderbook_top`, `get_trades`, `get_balances`, `get_transactions`, `get_pending_transactions`, `get_order`, `get_fee_info`) are not modelled as client members. Each only calls the `UrlMaker` endpoint modelled in `Urls` and then does HTTP.
- Floating-point formatting is not modelled: volumes, prices and the lightning amount (`f64::to_string`) are passed in as strings. `rust_decimal::Decimal` is opaque.
- Percent-encoding and form-urlencoding of bytes are not modelled. Segments and query pairs stay raw strings.
- `UrlMaker::lightning_send` and `UrlMaker::lightning_receive` are not defined in src/urls.rs, so `Client.LunoClient.LightningSend` and `Client.LunoClient.LightningReceive` take the endpoint URL as a parameter.
- src/client.rs constructs neither `CreateQuoteBuilder` nor `ListBalancesBuilder`, so their constructors take the URL (and, for quotes, the initial params) as given.
- Async/await is not modelled. src/error.rs, src/lib.rs, examples/ and src/bin/ are not modelled either, except the three usage programs cited in the table.
- Urls.ParseUrl: recognises a subset of the bases the url crate accepts. The base must be `http://` or `https://`, then a host of dot-separated lower-case labels, then path segments of unreserved characters that are not "." or "..", with no port, query or fragment. Each label must start with a letter, end with a letter or digit, and hold no "--". Such a host is left as it is by IDNA processing and is never read as an IPv4 address. The crate also accepts:
  - other schemes and ports;
  - IP address hosts;
  - labels that start with a digit, and valid Punycode labels;
  - upper-case hosts, which it lower-cases;
  - percent-encoded or dot segments;
  - extra slashes after the scheme: "https:///api/1/" becomes host "api".

  The model rejects all of these.
- Urls.NewUrlMaker: inherits the gap of Urls.ParseUrl. It reports an error for bases that the url crate accepts but that fall outside the recognised form.
- Urls.Url.ExtendSegments: models `extend` on a path that ends in a named segment, which is the only kind src/urls.rs extends. On a path of just "/", the crate replaces the empty segment instead of appending after it. Percent-encoding of the segment text is not modelled.
- Urls.UrlMaker.BuildUrl: requires a single relative segment (no '/', '?', '#', ':' or '\\', and not "." or ".."). Every call in src/urls.rs passes such a literal. Joining a longer relative reference is not modelled.
- Orders.ListOrdersBuilder.FilterPair: takes a `TradingPair` and stores its name, while `filter_pair` in src/orders.rs takes a `&str`.
