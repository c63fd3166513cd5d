/** The own-trades query builder: optional `since` and `limit` filters. */
module Trades {
  import opened Wrappers
  import opened Numbers
  import opened Urls

  function RenderFilter(key: string, v: Option<u64>): seq<(string, string)> {
    if v.Some? then [(key, IntToString(v.value))] else []
  }

  /** The pairs `ListTradesBuilder::get` appends: `since` first, then `limit`, each as a decimal string. */
  function TradesQuery(since: Option<u64>, limit: Option<u64>): (q: seq<(string, string)>)
    ensures |q| == (if since.Some? then 1 else 0) + (if limit.Some? then 1 else 0)
    ensures forall i :: 0 <= i < |q| ==> (q[i].0 == "since" || q[i].0 == "limit") && AllDigits(q[i].1)
  {
    RenderFilter("since", since) + RenderFilter("limit", limit)
  }

  /** A filter value read back from a query. */
  function DecodeFilter(v: Option<string>): Option<int> {
    match v
    case None => None
    case Some(s) => ParseInt(s)
  }

  /** `since` before `limit`, and reading the query gives back both filters. */
  lemma TradesQueryDecodes(since: Option<u64>, limit: Option<u64>)
    ensures since.Some? && limit.Some? ==>
              TradesQuery(since, limit)[0].0 == "since" && TradesQuery(since, limit)[1].0 == "limit"
    ensures DecodeFilter(Lookup(TradesQuery(since, limit), "since")) == since
    ensures DecodeFilter(Lookup(TradesQuery(since, limit), "limit")) == limit
  {
    var q := TradesQuery(since, limit);
    if since.Some? {
      IntToStringRoundTrip(since.value);
      assert q[1..] == TradesQuery(None, limit);
    }
    if limit.Some? {
      IntToStringRoundTrip(limit.value);
    }
  }

  /** `ListTradesBuilder`: optional filters over the list-trades URL of one pair. */
  class ListTradesBuilder {
    var limit: Option<u64>
    var since: Option<u64>
    var url: Url

    /** The struct literal of client.rs: no filters. */
    constructor (url: Url)
      ensures this.since == None && this.limit == None && this.url == url
    {
      this.limit := None;
      this.since := None;
      this.url := url;
    }

    /** `since(timestamp)`: sets `since`, replacing an earlier value. */
    method Since(timestamp: u64)
      modifies this
      ensures since == Some(timestamp)
      ensures limit == old(limit) && url == old(url)
    {
      since := Some(timestamp);
    }

    /** `limit(count)`: sets `limit`, replacing an earlier value. */
    method Limit(count: u64)
      modifies this
      ensures limit == Some(count)
      ensures since == old(since) && url == old(url)
    {
      limit := Some(count);
    }

    /** `get`: the URL requested, a copy of the stored one with the filters appended; the builder is not changed. */
    method Get() returns (request: Url)
      ensures request.scheme == url.scheme && request.host == url.host && request.segments == url.segments
      ensures request.query == url.query + TradesQuery(since, limit)
    {
      request := url;
      if since.Some? {
        request := request.AppendPair("since", IntToString(since.value));
      }
      if limit.Some? {
        request := request.AppendPair("limit", IntToString(limit.value));
      }
    }
  }
}
