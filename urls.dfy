/**
 * The endpoint URL builder (`UrlMaker`). A URL is kept abstractly as its
 * scheme, host, path segments and ordered query pairs; segments and pair
 * values are raw strings, percent-encoding being left to the URL library.
 * Endpoints are resolved against the configured API base the way a relative
 * reference is merged with a base URI (section 5.2.3 of RFC 3986): the last
 * segment of the base is dropped and the reference put in its place, so a
 * base ending in '/' keeps all its named segments.
 */
module Urls {
  import opened Wrappers
  import opened Text
  import opened Numbers
  import opened Market

  datatype Url = Url(scheme: string, host: string, segments: seq<string>, query: seq<(string, string)>) {

    /** `query_pairs_mut().append_pair(key, value)`: one more pair at the end of the query, nothing else changed. */
    function AppendPair(key: string, value: string): (u: Url)
      ensures u.scheme == scheme && u.host == host && u.segments == segments
      ensures |u.query| == |query| + 1 && u.query[..|query|] == query && u.query[|query|] == (key, value)
    {
      this.(query := query + [(key, value)])
    }

    /**
     * `path_segments_mut().extend(segs)` on a path that ends in a named
     * segment: every element becomes one whole segment, except "." and "..",
     * which the URL library skips.
     */
    function ExtendSegments(segs: seq<string>): (u: Url)
      ensures u.scheme == scheme && u.host == host && u.query == query
      ensures |u.segments| >= |segments| && u.segments[..|segments|] == segments
      ensures forall i :: |segments| <= i < |u.segments| ==> !IsDotSegment(u.segments[i])
      ensures (forall i :: 0 <= i < |segs| ==> !IsDotSegment(segs[i])) ==> u.segments == segments + segs
      ensures u.segments == segments + Undotted(segs)
    {
      this.(segments := segments + Undotted(segs))
    }
  }

  /** The segments "." and "..", which a URL library never keeps as names. */
  predicate IsDotSegment(s: string) { s == "." || s == ".." }

  /** `segs` without its "." and ".." elements, the others in order. */
  function Undotted(segs: seq<string>): (r: seq<string>)
    ensures |r| <= |segs|
    ensures forall i :: 0 <= i < |r| ==> !IsDotSegment(r[i])
    ensures (forall i :: 0 <= i < |segs| ==> !IsDotSegment(segs[i])) ==> r == segs
  {
    if |segs| == 0 then []
    else (if IsDotSegment(segs[0]) then [] else [segs[0]]) + Undotted(segs[1..])
  }

  /** A form-encoded POST as a terminal builder call issues it: its target and its body. */
  datatype FormPost = FormPost(url: Url, form: map<string, string>)

  /** The configuration error of an unparseable API base (a panic in `UrlMaker::new`). */
  datatype ConfigError = UnparseableBase(base: string)

  /** The value of the first pair with key `key`, as a server reading the query finds it. */
  function Lookup(q: seq<(string, string)>, key: string): Option<string> {
    if |q| == 0 then None
    else if q[0].0 == key then Some(q[0].1)
    else Lookup(q[1..], key)
  }

  /**
   * After `append_pair`, a reader taking the first pair per key still sees
   * an earlier value of the key; the new pair is found only for a new key.
   */
  lemma {:induction false} LookupAfterAppend(q: seq<(string, string)>, key: string, value: string, k: string)
    ensures Lookup(q + [(key, value)], k)
            == (if Lookup(q, k).Some? then Lookup(q, k) else if k == key then Some(value) else None)
  {
    if |q| == 0 {
      assert q + [(key, value)] == [(key, value)];
    } else {
      assert (q + [(key, value)])[1..] == q[1..] + [(key, value)];
      LookupAfterAppend(q[1..], key, value, k);
    }
  }

  /** One segment is kept exactly when it is not a dot segment. */
  lemma UndottedSingle(s: string)
    ensures Undotted([s]) == if IsDotSegment(s) then [] else [s]
  {
    assert [s][1..] == [];
  }

  /** Filtering distributes over concatenation, so the kept segments stay in their order. */
  lemma {:induction false} UndottedAppend(a: seq<string>, b: seq<string>)
    ensures Undotted(a + b) == Undotted(a) + Undotted(b)
  {
    if |a| == 0 {
      assert a + b == b;
    } else {
      assert (a + b)[0] == a[0] && (a + b)[1..] == a[1..] + b;
      UndottedAppend(a[1..], b);
    }
  }

  /** No path, query or fragment delimiter. */
  predicate NoDelims(s: string) {
    '/' !in s && '?' !in s && '#' !in s
  }

  /** A character of a plain domain name as the URL library keeps it: lower-case letters, digits, '-' and '.'. */
  predicate IsHostChar(c: char) {
    'a' <= c <= 'z' || '0' <= c <= '9' || c == '-' || c == '.'
  }

  predicate IsLetter(c: char) { 'a' <= c <= 'z' }

  predicate IsAlnum(c: char) { IsLetter(c) || '0' <= c <= '9' }

  /**
   * A plain domain name that IDNA processing leaves as it is and that is
   * never read as an IPv4 address: dot-separated labels, each starting with
   * a letter, ending with a letter or digit and holding no "--" (so no
   * "xn--" Punycode label).
   */
  predicate IsHost(s: string) {
    && |s| >= 1 && IsLetter(s[0]) && IsAlnum(s[|s| - 1])
    && (forall i :: 0 <= i < |s| ==> IsHostChar(s[i]))
    && forall i :: 0 <= i < |s| - 1 ==>
         && (s[i] == '.' ==> IsLetter(s[i + 1]))
         && (s[i + 1] == '.' ==> IsAlnum(s[i]))
         && !(s[i] == '-' && s[i + 1] == '-')
  }

  /** Two plain domain names joined by a dot form one. */
  lemma HostConcat(a: string, b: string)
    requires IsHost(a) && IsHost(b)
    ensures IsHost(a + "." + b)
  {
    var s := a + "." + b;
    forall i | 0 <= i < |s| - 1
      ensures (s[i] == '.' ==> IsLetter(s[i + 1])) && (s[i + 1] == '.' ==> IsAlnum(s[i]))
      ensures !(s[i] == '-' && s[i + 1] == '-')
    {
      if i < |a| - 1 {
        assert s[i] == a[i] && s[i + 1] == a[i + 1];
      } else if i == |a| - 1 {
        assert s[i] == a[i] && s[i + 1] == '.';
      } else if i == |a| {
        assert s[i + 1] == b[0];
      } else {
        assert s[i] == b[i - |a| - 1] && s[i + 1] == b[i - |a|];
      }
    }
    forall i | 0 <= i < |s| ensures IsHostChar(s[i]) {
      if i < |a| { assert s[i] == a[i]; } else if i > |a| { assert s[i] == b[i - |a| - 1]; }
    }
    assert s[0] == a[0] && s[|s| - 1] == b[|b| - 1];
  }

  /** An unreserved character of RFC 3986 (section 2.3), kept verbatim in a path. */
  predicate IsPathChar(c: char) {
    'a' <= c <= 'z' || 'A' <= c <= 'Z' || '0' <= c <= '9' || c == '-' || c == '.' || c == '_' || c == '~'
  }

  /** A base path segment the URL library keeps as written: unreserved characters and not a dot segment. */
  predicate IsBaseSegment(s: string) {
    !IsDotSegment(s) && forall i :: 0 <= i < |s| ==> IsPathChar(s[i])
  }

  /** The URLs the base parser produces: http(s), a plain host, at least one plain segment, no query. */
  predicate IsBase(u: Url) {
    && (u.scheme == "https" || u.scheme == "http")
    && IsHost(u.host)
    && |u.segments| >= 1
    && (forall i :: 0 <= i < |u.segments| ==> IsBaseSegment(u.segments[i]))
    && u.query == []
  }

  /** A host and the segments of a base contain no delimiter. */
  lemma BaseDelimiterFree(u: Url)
    requires IsBase(u)
    ensures NoDelims(u.host)
    ensures FreeOf(u.segments, '/')
  {
  }

  /** The text of a base URL: `scheme://host/seg/.../seg`. */
  function Render(u: Url): string {
    u.scheme + "://" + u.host + "/" + Join(u.segments, '/')
  }

  function ParseAfterScheme(scheme: string, rest: string): (r: Option<Url>)
    ensures r.Some? ==> r.value.scheme == scheme && r.value.query == []
    ensures r.Some? ==> IsHost(r.value.host) && |r.value.segments| >= 1
    ensures r.Some? ==> forall i :: 0 <= i < |r.value.segments| ==> IsBaseSegment(r.value.segments[i])
  {
    var parts := Split(rest, '/');
    var segments := if |parts| == 1 then [""] else parts[1..];
    if IsHost(parts[0]) && forall i :: 0 <= i < |segments| ==> IsBaseSegment(segments[i]) then
      Some(Url(scheme, parts[0], segments, []))
    else None
  }

  /**
   * `reqwest::Url::parse` restricted to http(s) URLs with a plain domain,
   * plain path segments and no port, query or fragment: "https://host" has
   * the single empty segment, as "https://host/".
   */
  function ParseUrl(s: string): (r: Option<Url>)
    ensures r.Some? ==> IsBase(r.value)
  {
    if |s| >= 8 && s[..8] == "https://" then ParseAfterScheme("https", s[8..])
    else if |s| >= 7 && s[..7] == "http://" then ParseAfterScheme("http", s[7..])
    else None
  }

  lemma ParseAfterSchemeRender(u: Url)
    requires IsBase(u)
    ensures ParseAfterScheme(u.scheme, u.host + "/" + Join(u.segments, '/')) == Some(u)
  {
    var path := Join(u.segments, '/');
    var rest := u.host + "/" + path;
    BaseDelimiterFree(u);
    SplitAtFirst(u.host, path, '/');
    SplitJoin(u.segments, '/');
    assert Split(rest, '/') == [u.host] + u.segments;
  }

  /** Parsing the text of a base URL gives that URL back. */
  lemma ParseRender(u: Url)
    requires IsBase(u)
    ensures ParseUrl(Render(u)) == Some(u)
  {
    var s := Render(u);
    var rest := u.host + "/" + Join(u.segments, '/');
    ParseAfterSchemeRender(u);
    if u.scheme == "https" {
      assert s[..8] == "https://" && s[8..] == rest;
    } else {
      assert s[..7] == "http://" && s[7..] == rest;
      assert s[..8] != "https://" by { assert s[4] == ':'; }
    }
  }

  /** Rendering a parsed URL reproduces the text, with a '/' added when it had no path. */
  lemma RenderParseAfterScheme(scheme: string, rest: string)
    requires ParseAfterScheme(scheme, rest).Some?
    ensures var u := ParseAfterScheme(scheme, rest).value;
            u.host + "/" + Join(u.segments, '/') == rest || u.host + "/" + Join(u.segments, '/') == rest + "/"
  {
    var parts := Split(rest, '/');
    JoinSplit(rest, '/');
    if |parts| > 1 {
      assert parts == [parts[0]] + parts[1..];
      assert Join(parts, '/') == parts[0] + "/" + Join(parts[1..], '/');
    }
  }

  lemma RenderWithScheme(scheme: string, s: string, n: nat)
    requires |s| >= n && s[..n] == scheme + "://" && ParseAfterScheme(scheme, s[n..]).Some?
    ensures Render(ParseAfterScheme(scheme, s[n..]).value) == s
            || Render(ParseAfterScheme(scheme, s[n..]).value) == s + "/"
  {
    var rest := s[n..];
    var u := ParseAfterScheme(scheme, rest).value;
    RenderParseAfterScheme(scheme, rest);
    assert s == s[..n] + rest;
    assert Render(u) == (scheme + "://") + (u.host + "/" + Join(u.segments, '/'));
    assert s + "/" == s[..n] + (rest + "/");
  }

  lemma RenderParse(s: string)
    requires ParseUrl(s).Some?
    ensures Render(ParseUrl(s).value) == s || Render(ParseUrl(s).value) == s + "/"
  {
    if |s| >= 8 && s[..8] == "https://" {
      RenderWithScheme("https", s, 8);
    } else {
      RenderWithScheme("http", s, 7);
    }
  }

  /** A reference that the merge keeps as exactly one new last segment. */
  predicate IsRelativeSegment(p: string) {
    p != "" && p != "." && p != ".." && NoDelims(p) && ':' !in p && '\\' !in p
  }

  function Max(a: int, b: int): int { if a < b then b else a }

  /** `UrlMaker`: an immutable API base from which every endpoint is derived. */
  datatype UrlMaker = UrlMaker(apiBase: Url) {

    /** The path the relative endpoints are merged into: the base's segments without the last. */
    function Directory(): seq<string> {
      if |apiBase.segments| == 0 then [] else apiBase.segments[..|apiBase.segments| - 1]
    }

    /** `u` is the base's scheme and host, the directory followed by `rel`, and the query `q`. */
    predicate Locates(u: Url, rel: seq<string>, q: seq<(string, string)>) {
      u == Url(apiBase.scheme, apiBase.host, Directory() + rel, q)
    }

    /** `build_url`: the base's origin and path with its last segment replaced by `path`; no query. */
    function BuildUrl(path: string): (u: Url)
      requires IsRelativeSegment(path)
      ensures u.scheme == apiBase.scheme && u.host == apiBase.host && u.query == []
      ensures |u.segments| == Max(1, |apiBase.segments|) && u.segments[|u.segments| - 1] == path
      ensures forall i :: 0 <= i < |u.segments| - 1 ==> u.segments[i] == apiBase.segments[i]
    {
      Url(apiBase.scheme, apiBase.host, Directory() + [path], [])
    }

    /** `ticker(pair)`: .../ticker?pair=NAME. */
    method Ticker(pair: TradingPair) returns (url: Url)
      ensures Locates(url, ["ticker"], [("pair", PairName(pair))])
    {
      url := BuildUrl("ticker");
      url := url.AppendPair("pair", PairName(pair));
    }

    /** `tickers()`: .../tickers. */
    function Tickers(): (u: Url)
      ensures Locates(u, ["tickers"], [])
    {
      BuildUrl("tickers")
    }

    /** `orderbook_top(pair)`: .../orderbook_top?pair=NAME. */
    method OrderbookTop(pair: TradingPair) returns (url: Url)
      ensures Locates(url, ["orderbook_top"], [("pair", PairName(pair))])
    {
      url := BuildUrl("orderbook_top");
      url := url.AppendPair("pair", PairName(pair));
    }

    /** `orderbook(pair)`: .../orderbook?pair=NAME. */
    method Orderbook(pair: TradingPair) returns (url: Url)
      ensures Locates(url, ["orderbook"], [("pair", PairName(pair))])
    {
      url := BuildUrl("orderbook");
      url := url.AppendPair("pair", PairName(pair));
    }

    /** `trades(pair)`: .../trades?pair=NAME. */
    method Trades(pair: TradingPair) returns (url: Url)
      ensures Locates(url, ["trades"], [("pair", PairName(pair))])
    {
      url := BuildUrl("trades");
      url := url.AppendPair("pair", PairName(pair));
    }

    /** `accounts()`: .../accounts. */
    function Accounts(): (u: Url)
      ensures Locates(u, ["accounts"], [])
    {
      BuildUrl("accounts")
    }

    /** `account_name(id, name)`: .../accounts/ID?name=NAME, the id as one segment unless it is a dot segment. */
    method AccountName(accountId: string, name: string) returns (url: Url)
      ensures !IsDotSegment(accountId) ==> Locates(url, ["accounts", accountId], [("name", name)])
      ensures IsDotSegment(accountId) ==> Locates(url, ["accounts"], [("name", name)])
    {
      url := Accounts();
      url := url.ExtendSegments([accountId]);
      url := url.AppendPair("name", name);
    }

    /** `balance()`: .../balance. */
    function Balance(): (u: Url)
      ensures Locates(u, ["balance"], [])
    {
      BuildUrl("balance")
    }

    /** `transactions(id, min, max)`: .../accounts/ID/transactions?min_row=MIN&max_row=MAX. */
    method Transactions(accountId: string, minRow: i64, maxRow: i64) returns (url: Url)
      ensures !IsDotSegment(accountId) ==>
                Locates(url, ["accounts", accountId, "transactions"],
                        [("min_row", IntToString(minRow)), ("max_row", IntToString(maxRow))])
      ensures IsDotSegment(accountId) ==>
                Locates(url, ["accounts", "transactions"],
                        [("min_row", IntToString(minRow)), ("max_row", IntToString(maxRow))])
    {
      url := Accounts();
      url := url.ExtendSegments([accountId, "transactions"]);
      url := url.AppendPair("min_row", IntToString(minRow));
      url := url.AppendPair("max_row", IntToString(maxRow));
    }

    /** `pending_transactions(id)`: .../accounts/ID/pending. */
    method PendingTransactions(accountId: string) returns (url: Url)
      ensures !IsDotSegment(accountId) ==> Locates(url, ["accounts", accountId, "pending"], [])
      ensures IsDotSegment(accountId) ==> Locates(url, ["accounts", "pending"], [])
    {
      url := Accounts();
      url := url.ExtendSegments([accountId, "pending"]);
    }

    /** `beneficiaries()`: .../beneficiaries. */
    function Beneficiaries(): (u: Url)
      ensures Locates(u, ["beneficiaries"], [])
    {
      BuildUrl("beneficiaries")
    }

    /** `list_orders()`: .../listorders. */
    function ListOrders(): (u: Url)
      ensures Locates(u, ["listorders"], [])
    {
      BuildUrl("listorders")
    }

    /** `post_order()`: .../postorder. */
    function PostOrder(): (u: Url)
      ensures Locates(u, ["postorder"], [])
    {
      BuildUrl("postorder")
    }

    /** `market_order()`: .../marketorder. */
    function MarketOrder(): (u: Url)
      ensures Locates(u, ["marketorder"], [])
    {
      BuildUrl("marketorder")
    }

    /** `stop_order()`: .../stoporder. */
    function StopOrder(): (u: Url)
      ensures Locates(u, ["stoporder"], [])
    {
      BuildUrl("stoporder")
    }

    /** `orders(id)`: .../orders/ID, the id as one segment whatever else it holds, unless it is a dot segment. */
    method Orders(orderId: string) returns (url: Url)
      ensures !IsDotSegment(orderId) ==> Locates(url, ["orders", orderId], [])
      ensures IsDotSegment(orderId) ==> Locates(url, ["orders"], [])
    {
      url := BuildUrl("orders");
      url := url.ExtendSegments([orderId]);
    }

    /** `list_trades(pair)`: .../listtrades?pair=NAME. */
    method ListTrades(pair: TradingPair) returns (url: Url)
      ensures Locates(url, ["listtrades"], [("pair", PairName(pair))])
    {
      url := BuildUrl("listtrades");
      url := url.AppendPair("pair", PairName(pair));
    }

    /** `fee_info(pair)`: .../fee_info?pair=NAME. */
    method FeeInfo(pair: TradingPair) returns (url: Url)
      ensures Locates(url, ["fee_info"], [("pair", PairName(pair))])
    {
      url := BuildUrl("fee_info");
      url := url.AppendPair("pair", PairName(pair));
    }

    /** `quotes()`: .../quotes. */
    function Quotes(): (u: Url)
      ensures Locates(u, ["quotes"], [])
    {
      BuildUrl("quotes")
    }

    /** `quote_action(id)`: .../quotes/ID, the id as one segment unless it is a dot segment. */
    method QuoteAction(id: string) returns (url: Url)
      ensures !IsDotSegment(id) ==> Locates(url, ["quotes", id], [])
      ensures IsDotSegment(id) ==> Locates(url, ["quotes"], [])
    {
      url := Quotes();
      url := url.ExtendSegments([id]);
    }
  }

  /** `UrlMaker::new`: fails (the `unwrap` panic) exactly when the base does not parse. */
  function NewUrlMaker(apiBase: string): (r: Result<UrlMaker, ConfigError>)
    ensures r.Ok? <==> ParseUrl(apiBase).Some?
    ensures r.Ok? ==> r.value.apiBase == ParseUrl(apiBase).value
    ensures r.Err? ==> r.error == UnparseableBase(apiBase)
  {
    match ParseUrl(apiBase)
    case Some(u) => Ok(UrlMaker(u))
    case None => Err(UnparseableBase(apiBase))
  }

  /** Without the trailing '/', the merge would replace the base's last segment ("1") by the endpoint. */
  lemma BaseWithoutTrailingSlash()
    ensures UrlMaker(Url("https", "api.mybitx.com", ["api", "1"], [])).BuildUrl("ticker").segments
            == ["api", "ticker"]
  {
  }

  lemma NoSchemeFails()
    ensures NewUrlMaker("api.mybitx.com/api/1/") == Err(UnparseableBase("api.mybitx.com/api/1/"))
  {
    var s := "api.mybitx.com/api/1/";
    assert s[..7] != "http://" by { assert s[0] == 'a'; }
    assert s[..8] != "https://" by { assert s[0] == 'a'; }
  }

  lemma EmptyHostFails()
    ensures NewUrlMaker("https://").Err?
  {
    var s := "https://";
    assert s[..8] == "https://" && s[8..] == [];
  }

  /** An https base whose host is no plain domain name is rejected. */
  lemma BadHostFails(host: string)
    requires !IsHost(host) && '/' !in host
    ensures ParseUrl("https://" + host + "/") == None
  {
    var s := "https://" + host + "/";
    assert s[..8] == "https://" && s[8..] == host + ['/'] + [];
    SplitAtFirst(host, [], '/');
  }

  lemma SpaceInHostFails()
    ensures NewUrlMaker("https://a b/").Err?
  {
    assert !IsHostChar("a b"[1]);
    BadHostFails("a b");
    assert "https://" + "a b" + "/" == "https://a b/";
  }

  lemma NonNumericPortFails()
    ensures NewUrlMaker("https://h:x/").Err?
  {
    assert !IsHostChar("h:x"[1]);
    BadHostFails("h:x");
    assert "https://" + "h:x" + "/" == "https://h:x/";
  }

  /** "xn--a" is a Punycode label that IDNA decodes to a disallowed character. */
  lemma PunycodeHostFails()
    ensures NewUrlMaker("https://xn--a/").Err?
  {
    var h := "xn--a";
    assert h[2] == '-' && h[3] == '-';
    BadHostFails(h);
    assert "https://" + h + "/" == "https://xn--a/";
  }

  /** "a.1" ends in a number, so the host parser takes it for an IPv4 address and rejects it. */
  lemma NumericLabelHostFails()
    ensures NewUrlMaker("https://a.1/").Err?
  {
    var h := "a.1";
    assert h[1] == '.' && !IsLetter(h[2]);
    BadHostFails(h);
    assert "https://" + h + "/" == "https://a.1/";
  }

  /**
   * Bases that `Url::parse` rejects are configuration errors: no scheme, an
   * empty host, a space in the host, a port that is not a number, an invalid
   * Punycode label, a host ending in a number that is no IPv4 address.
   */
  lemma UnparseableBaseFails()
    ensures NewUrlMaker("api.mybitx.com/api/1/") == Err(UnparseableBase("api.mybitx.com/api/1/"))
    ensures NewUrlMaker("https://").Err?
    ensures NewUrlMaker("https://a b/").Err?
    ensures NewUrlMaker("https://h:x/").Err?
    ensures NewUrlMaker("https://xn--a/").Err?
    ensures NewUrlMaker("https://a.1/").Err?
  {
    NoSchemeFails();
    EmptyHostFails();
    SpaceInHostFails();
    NonNumericPortFails();
    PunycodeHostFails();
    NumericLabelHostFails();
  }
}
