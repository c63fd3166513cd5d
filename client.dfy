/**
 * The client facade's request construction: the production base, the
 * credentials, and for each operation the URL and the form it seeds or the
 * builder it hands out. The HTTP exchange itself is not modelled; a form
 * POST is returned as the `FormPost` it would send.
 */
module Client {
  import opened Wrappers
  import opened Text
  import opened Numbers
  import opened Market
  import opened Credential
  import opened Urls
  import opened Orders
  import opened Trades
  import opened Lightning

  /** `API_BASE`. */
  const ApiBase: string := "https://api.mybitx.com/api/1/"

  /** `API_BASE` as a URL value: host api.mybitx.com, segments api, 1 and a trailing empty one. */
  const ApiBaseUrl: Url := Url("https", "api.mybitx.com", ["api", "1", ""], [])

  lemma ApiHostLabels()
    ensures IsHost("api") && IsHost("mybitx") && IsHost("com")
  {
  }

  lemma ApiHostIsHost()
    ensures IsHost("api.mybitx.com")
  {
    ApiHostLabels();
    HostConcat("mybitx", "com");
    assert "mybitx" + "." + "com" == "mybitx.com";
    HostConcat("api", "mybitx.com");
    assert "api" + "." + "mybitx.com" == "api.mybitx.com";
  }

  lemma ApiBaseIsBase()
    ensures IsBase(ApiBaseUrl)
  {
    ApiHostIsHost();
    assert IsBaseSegment("api") && IsBaseSegment("1") && IsBaseSegment("");
  }

  lemma ApiPathJoined()
    ensures Join(["api", "1", ""], '/') == "api/1/"
  {
    assert Join([""], '/') == "";
    assert Join(["1", ""], '/') == "1/";
  }

  lemma ApiBaseRendered()
    ensures Render(ApiBaseUrl) == ApiBase
  {
    ApiPathJoined();
    assert "https" + "://" + "api.mybitx.com" + "/" == "https://api.mybitx.com/";
  }

  /** The production base parses, so the client's construction never panics, and every endpoint lives under /api/1/. */
  lemma ApiBaseParses()
    ensures ParseUrl(ApiBase) == Some(ApiBaseUrl)
    ensures NewUrlMaker(ApiBase) == Ok(UrlMaker(ApiBaseUrl))
    ensures UrlMaker(ApiBaseUrl).Directory() == ["api", "1"]
  {
    ApiBaseIsBase();
    ApiBaseRendered();
    ParseRender(ApiBaseUrl);
  }

  /** `LunoClient`: read-only after construction; the HTTP handle is not modelled. */
  datatype LunoClient = LunoClient(credentials: Credentials, urlMaker: UrlMaker) {

    /** `create_account`: POST to accounts with exactly the currency name and the account name. */
    method CreateAccount(currency: Currency, name: string) returns (request: FormPost)
      ensures urlMaker.Locates(request.url, ["accounts"], [])
      ensures request.form.Keys == {"currency", "name"}
      ensures request.form["currency"] == CurrencyName(currency) && request.form["name"] == name
    {
      var url := urlMaker.Accounts();
      var params: map<string, string> := map[];
      params := params["currency" := CurrencyName(currency)];
      params := params["name" := name];
      request := FormPost(url, params);
    }

    /** `list_orders`: a builder over listorders with no filters. */
    method ListOrders() returns (b: ListOrdersBuilder)
      ensures fresh(b) && b.Valid()
      ensures b.state == None && b.pair == None
      ensures urlMaker.Locates(b.url, ["listorders"], [])
    {
      b := new ListOrdersBuilder(urlMaker.ListOrders());
    }

    /** `limit_order`: a builder over postorder seeded with exactly pair, type, volume and price. */
    method LimitOrder(pair: TradingPair, orderType: LimitOrderType, volume: string, price: string)
      returns (b: PostLimitOrderBuilder)
      ensures fresh(b) && b.Valid()
      ensures urlMaker.Locates(b.url, ["postorder"], [])
      ensures b.params.Keys == {"pair", "type", "volume", "price"}
      ensures b.params["pair"] == PairName(pair) && b.params["type"] == LimitOrderTypeName(orderType)
      ensures b.params["volume"] == volume && b.params["price"] == price
    {
      var params: map<string, string> := map[];
      params := params["pair" := PairName(pair)];
      params := params["type" := LimitOrderTypeName(orderType)];
      params := params["volume" := volume];
      params := params["price" := price];
      LimitOrderTypeRoundTrip(orderType);
      b := new PostLimitOrderBuilder(urlMaker.PostOrder(), params);
    }

    /**
     * `market_order`: a builder over marketorder seeded with pair and type,
     * and the volume as `counter_volume` for a BUY, as `base_volume` for a SELL.
     */
    method MarketOrder(pair: TradingPair, orderType: MarketOrderType, volume: string)
      returns (b: PostMarketOrderBuilder)
      ensures fresh(b) && b.Valid()
      ensures urlMaker.Locates(b.url, ["marketorder"], [])
      ensures b.params["pair"] == PairName(pair) && b.params["type"] == MarketOrderTypeName(orderType)
      ensures orderType == BUY ==>
                b.params.Keys == {"pair", "type", "counter_volume"} && b.params["counter_volume"] == volume
      ensures orderType == SELL ==>
                b.params.Keys == {"pair", "type", "base_volume"} && b.params["base_volume"] == volume
    {
      var params: map<string, string> := map[];
      params := params["pair" := PairName(pair)];
      params := params["type" := MarketOrderTypeName(orderType)];
      match orderType {
        case BUY => params := params["counter_volume" := volume];
        case SELL => params := params["base_volume" := volume];
      }
      MarketOrderTypeRoundTrip(orderType);
      b := new PostMarketOrderBuilder(urlMaker.MarketOrder(), params);
    }

    /** `stop_order`: POST to stoporder with exactly the order id. */
    method StopOrder(orderId: string) returns (request: FormPost)
      ensures urlMaker.Locates(request.url, ["stoporder"], [])
      ensures request.form.Keys == {"order_id"} && request.form["order_id"] == orderId
    {
      var url := urlMaker.StopOrder();
      var params: map<string, string> := map[];
      params := params["order_id" := orderId];
      request := FormPost(url, params);
    }

    /** `list_own_trades`: a builder over listtrades?pair=NAME with no filters. */
    method ListOwnTrades(pair: TradingPair) returns (b: ListTradesBuilder)
      ensures fresh(b)
      ensures b.since == None && b.limit == None
      ensures urlMaker.Locates(b.url, ["listtrades"], [("pair", PairName(pair))])
    {
      var url := urlMaker.ListTrades(pair);
      b := new ListTradesBuilder(url);
    }

    /** `lightning_send`: a builder seeded with exactly the payment request. */
    method LightningSend(paymentRequest: string, sendUrl: Url) returns (b: LightningSendBuilder)
      ensures fresh(b) && b.Valid()
      ensures b.url == sendUrl
      ensures b.params.Keys == {"payment_request"} && b.params["payment_request"] == paymentRequest
    {
      var params: map<string, string> := map[];
      params := params["payment_request" := paymentRequest];
      b := new LightningSendBuilder(sendUrl, params);
    }

    /** `lightning_receive`: a builder seeded with exactly the amount and the decimal expiry. */
    method LightningReceive(amount: string, expiresAt: u64, receiveUrl: Url) returns (b: LightningReceiveBuilder)
      ensures fresh(b) && b.Valid()
      ensures b.url == receiveUrl
      ensures b.params.Keys == {"amount", "expires_at"}
      ensures b.params["amount"] == amount && b.params["expires_at"] == IntToString(expiresAt)
      ensures ParseInt(b.params["expires_at"]) == Some(expiresAt as int)
    {
      var params: map<string, string> := map[];
      params := params["amount" := amount];
      params := params["expires_at" := IntToString(expiresAt)];
      IntToStringRoundTrip(expiresAt);
      b := new LightningReceiveBuilder(receiveUrl, params);
    }
  }

  /** `LunoClient::new`: the given credentials and the production base; it cannot fail. */
  function NewClient(key: string, secret: string): (c: LunoClient)
    ensures c.credentials.key == key && c.credentials.secret == secret
    ensures NewUrlMaker(ApiBase) == Ok(c.urlMaker)
    ensures c.urlMaker.Directory() == ["api", "1"] && c.urlMaker.apiBase.host == "api.mybitx.com"
  {
    ApiBaseParses();
    LunoClient(NewCredentials(key, secret), NewUrlMaker(ApiBase).value)
  }

  /** The limit-order program: `limit_order(XBTZAR, ASK, ..).post_only().post()`. */
  method PostOnlyLimitOrder(client: LunoClient, volume: string, price: string) returns (request: FormPost)
    ensures client.urlMaker.Locates(request.url, ["postorder"], [])
    ensures request.form == map["pair" := "XBTZAR", "type" := "ASK", "volume" := volume,
                                "price" := price, "post_only" := "true"]
  {
    var b := client.LimitOrder(XBTZAR, ASK, volume, price);
    b.PostOnly();
    request := b.Post();
  }

  /** The market-order program: `market_order(XBTZAR, BUY, ..).post()` carries no base volume. */
  method BuyMarketOrder(client: LunoClient, volume: string) returns (request: FormPost)
    ensures client.urlMaker.Locates(request.url, ["marketorder"], [])
    ensures request.form == map["pair" := "XBTZAR", "type" := "BUY", "counter_volume" := volume]
    ensures "base_volume" !in request.form
  {
    var b := client.MarketOrder(XBTZAR, BUY, volume);
    request := b.Post();
  }

  /** The list-orders program: `list_orders().filter_state(Complete).get()`. */
  method CompletedOrders(client: LunoClient) returns (request: Url)
    ensures client.urlMaker.Locates(request, ["listorders"], [("state", "COMPLETE")])
  {
    var b := client.ListOrders();
    b.FilterState(Complete);
    request := b.Get();
  }
}
