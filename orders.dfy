/**
 * Orders: the order-type wire enums, the order-state filter, the list-orders
 * query builder and the two order-placement form builders.
 */
module Orders {
  import opened Wrappers
  import opened Market
  import opened Urls

  /** Side of a limit order. */
  datatype LimitOrderType = ASK | BID

  /** Side of a market order. */
  datatype MarketOrderType = BUY | SELL

  /** `LimitOrderType::to_string`. */
  function LimitOrderTypeName(t: LimitOrderType): (s: string)
    ensures s == "ASK" || s == "BID"
  {
    match t
    case ASK => "ASK"
    case BID => "BID"
  }

  /** `LimitOrderType::from_str`: exact, case-sensitive. */
  function ParseLimitOrderType(s: string): (r: Result<LimitOrderType, ParseError>)
    ensures r.Ok? ==> LimitOrderTypeName(r.value) == s
  {
    match s
    case "ASK" => Ok(ASK)
    case "BID" => Ok(BID)
    case _ => Err(VariantNotFound)
  }

  /** `MarketOrderType::to_string`. */
  function MarketOrderTypeName(t: MarketOrderType): (s: string)
    ensures s == "BUY" || s == "SELL"
  {
    match t
    case BUY => "BUY"
    case SELL => "SELL"
  }

  /** `MarketOrderType::from_str`: exact, case-sensitive. */
  function ParseMarketOrderType(s: string): (r: Result<MarketOrderType, ParseError>)
    ensures r.Ok? ==> MarketOrderTypeName(r.value) == s
  {
    match s
    case "BUY" => Ok(BUY)
    case "SELL" => Ok(SELL)
    case _ => Err(VariantNotFound)
  }

  /** Parsing a rendered limit order type gives it back. */
  lemma LimitOrderTypeRoundTrip(t: LimitOrderType)
    ensures ParseLimitOrderType(LimitOrderTypeName(t)) == Ok(t)
  {
  }

  /** Parsing a rendered market order type gives it back. */
  lemma MarketOrderTypeRoundTrip(t: MarketOrderType)
    ensures ParseMarketOrderType(MarketOrderTypeName(t)) == Ok(t)
  {
  }

  /** The order-type names are distinct, and lower case is rejected. */
  lemma OrderTypeNamesDistinct(a: LimitOrderType, b: LimitOrderType, c: MarketOrderType, d: MarketOrderType)
    ensures LimitOrderTypeName(a) == LimitOrderTypeName(b) ==> a == b
    ensures MarketOrderTypeName(c) == MarketOrderTypeName(d) ==> c == d
    ensures ParseLimitOrderType("ask").Err? && ParseMarketOrderType("buy").Err?
  {
    LimitOrderTypeRoundTrip(a);
    LimitOrderTypeRoundTrip(b);
    MarketOrderTypeRoundTrip(c);
    MarketOrderTypeRoundTrip(d);
  }

  /** The state filter of list orders. */
  datatype OrderState = Complete | Pending

  /** The wire string `filter_state` stores for each state. */
  function StateFilterValue(s: OrderState): (v: string)
    ensures v == "COMPLETE" || v == "PENDING"
  {
    match s
    case Complete => "COMPLETE"
    case Pending => "PENDING"
  }

  /** Reads a state filter value back, as the server does. */
  function ParseStateFilter(v: string): Option<OrderState> {
    if v == "COMPLETE" then Some(Complete) else if v == "PENDING" then Some(Pending) else None
  }

  lemma StateFilterRoundTrip(s: OrderState)
    ensures ParseStateFilter(StateFilterValue(s)) == Some(s)
  {
  }

  /** The pairs `ListOrdersBuilder::get` appends: `state` first, then `pair`, one per filter set. */
  function ListOrdersQuery(state: Option<string>, pair: Option<string>): (q: seq<(string, string)>)
    ensures |q| == (if state.Some? then 1 else 0) + (if pair.Some? then 1 else 0)
    ensures forall i :: 0 <= i < |q| ==> q[i].0 == "state" || q[i].0 == "pair"
  {
    (if state.Some? then [("state", state.value)] else [])
    + (if pair.Some? then [("pair", pair.value)] else [])
  }

  /** No pair without filters, the state pair before the pair pair, and reading the query gives back each filter. */
  lemma ListOrdersQueryShape(state: Option<string>, pair: Option<string>)
    ensures state == None && pair == None ==> ListOrdersQuery(state, pair) == []
    ensures state.Some? && pair.Some? ==>
              ListOrdersQuery(state, pair) == [("state", state.value), ("pair", pair.value)]
    ensures Lookup(ListOrdersQuery(state, pair), "state") == state
    ensures Lookup(ListOrdersQuery(state, pair), "pair") == pair
  {
    var q := ListOrdersQuery(state, pair);
    if state.Some? {
      assert q[1..] == ListOrdersQuery(None, pair);
    }
  }

  /** `ListOrdersBuilder`: optional state and pair filters over the list-orders URL. */
  class ListOrdersBuilder {
    var state: Option<string>
    var pair: Option<string>
    var url: Url

    /** Every stored filter is a wire value: a state name, a pair name. */
    ghost predicate Valid()
      reads this
    {
      && (state.Some? ==> ParseStateFilter(state.value).Some?)
      && (pair.Some? ==> ParsePair(pair.value).Ok?)
    }

    /** The struct literal of client.rs: no filters. */
    constructor (url: Url)
      ensures Valid()
      ensures this.state == None && this.pair == None && this.url == url
    {
      this.state := None;
      this.pair := None;
      this.url := url;
    }

    /** `filter_state`: sets the state filter, replacing an earlier one. */
    method FilterState(s: OrderState)
      requires Valid()
      modifies this
      ensures Valid()
      ensures state == Some(StateFilterValue(s))
      ensures pair == old(pair) && url == old(url)
    {
      state := Some(StateFilterValue(s));
    }

    /** `filter_pair`: sets the pair filter, replacing an earlier one. */
    method FilterPair(p: TradingPair)
      requires Valid()
      modifies this
      ensures Valid()
      ensures pair == Some(PairName(p))
      ensures state == old(state) && url == old(url)
    {
      PairRoundTrip(p);
      pair := Some(PairName(p));
    }

    /** `get`: the URL requested, a copy of the stored one with the filters appended; the builder is not changed. */
    method Get() returns (request: Url)
      ensures request.scheme == url.scheme && request.host == url.host && request.segments == url.segments
      ensures request.query == url.query + ListOrdersQuery(state, pair)
    {
      request := url;
      if state.Some? {
        request := request.AppendPair("state", state.value);
      }
      if pair.Some? {
        request := request.AppendPair("pair", pair.value);
      }
    }
  }

  /** Every key a limit order form can hold. */
  const LimitOrderKeys: set<string> :=
    {"pair", "type", "volume", "price", "base_account_id", "counter_account_id", "post_only"}

  /** `PostLimitOrderBuilder`: the form of a limit order. */
  class PostLimitOrderBuilder {
    var url: Url
    var params: map<string, string>

    /** The four seeded keys stay, only known keys appear, and the post-only flag is "true". */
    ghost predicate Valid()
      reads this
    {
      && {"pair", "type", "volume", "price"} <= params.Keys <= LimitOrderKeys
      && ParseLimitOrderType(params["type"]).Ok?
      && ("post_only" in params ==> params["post_only"] == "true")
    }

    /** The struct literal of client.rs. */
    constructor (url: Url, params: map<string, string>)
      ensures this.url == url && this.params == params
    {
      this.url := url;
      this.params := params;
    }

    /** `with_base_account`: sets `base_account_id`, replacing an earlier one. */
    method WithBaseAccount(id: string)
      requires Valid()
      modifies this
      ensures Valid()
      ensures params == old(params)["base_account_id" := id] && url == old(url)
    {
      params := params["base_account_id" := id];
    }

    /** `with_counter_account`: sets `counter_account_id`, replacing an earlier one. */
    method WithCounterAccount(id: string)
      requires Valid()
      modifies this
      ensures Valid()
      ensures params == old(params)["counter_account_id" := id] && url == old(url)
    {
      params := params["counter_account_id" := id];
    }

    /** `post_only`: sets `post_only` to "true"; a second call changes nothing. */
    method PostOnly()
      requires Valid()
      modifies this
      ensures Valid()
      ensures params == old(params)["post_only" := "true"] && url == old(url)
      ensures old("post_only" in params) ==> params == old(params)
    {
      params := params["post_only" := "true"];
    }

    /** `post`: one form POST of the current params to the stored URL; nothing is changed. */
    method Post() returns (request: FormPost)
      ensures request.url == url && request.form == params
    {
      request := FormPost(url, params);
    }
  }

  /** Every key a market order form can hold. */
  const MarketOrderKeys: set<string> :=
    {"pair", "type", "counter_volume", "base_volume", "base_account_id", "counter_account_id"}

  /**
   * The market-order asymmetry: a BUY carries the counter amount to spend and
   * no base volume, a SELL the base amount to sell and no counter volume.
   */
  ghost predicate MarketVolumeRule(params: map<string, string>)
  {
    && "type" in params
    && (params["type"] == "BUY" ==> "counter_volume" in params && "base_volume" !in params)
    && (params["type"] == "SELL" ==> "base_volume" in params && "counter_volume" !in params)
  }

  /** `PostMarketOrderBuilder`: the form of a market order. */
  class PostMarketOrderBuilder {
    var url: Url
    var params: map<string, string>

    /** The seeded keys stay, only known keys appear, and the volume rule holds. */
    ghost predicate Valid()
      reads this
    {
      && {"pair", "type"} <= params.Keys <= MarketOrderKeys
      && ParseMarketOrderType(params["type"]).Ok?
      && MarketVolumeRule(params)
    }

    /** The struct literal of client.rs. */
    constructor (url: Url, params: map<string, string>)
      ensures this.url == url && this.params == params
    {
      this.url := url;
      this.params := params;
    }

    /** `with_base_account`: sets `base_account_id`, replacing an earlier one; the volume keys are untouched. */
    method WithBaseAccount(id: string)
      requires Valid()
      modifies this
      ensures Valid()
      ensures params == old(params)["base_account_id" := id] && url == old(url)
    {
      params := params["base_account_id" := id];
    }

    /** `with_counter_account`: sets `counter_account_id`, replacing an earlier one; the volume keys are untouched. */
    method WithCounterAccount(id: string)
      requires Valid()
      modifies this
      ensures Valid()
      ensures params == old(params)["counter_account_id" := id] && url == old(url)
    {
      params := params["counter_account_id" := id];
    }

    /** `post`: one form POST of the current params to the stored URL; nothing is changed. */
    method Post() returns (request: FormPost)
      ensures request.url == url && request.form == params
    {
      request := FormPost(url, params);
    }
  }
}
