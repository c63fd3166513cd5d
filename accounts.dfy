/** The balances query builder and its comma-joined `assets` filter. */
module Accounts {
  import opened Wrappers
  import opened Text
  import opened Market
  import opened Urls

  /** The names of the assets, in the order given. */
  function CurrencyNames(assets: seq<Currency>): (names: seq<string>)
    ensures |names| == |assets|
    ensures forall i :: 0 <= i < |assets| ==> names[i] == CurrencyName(assets[i])
  {
    if |assets| == 0 then [] else [CurrencyName(assets[0])] + CurrencyNames(assets[1..])
  }

  /** Joining n three-letter names with one separator gives 4n - 1 characters. */
  lemma {:induction false} JoinedNamesLength(names: seq<string>, sep: char)
    requires |names| >= 1 && forall i :: 0 <= i < |names| ==> |names[i]| == 3
    ensures |Join(names, sep)| == 4 * |names| - 1
  {
    if |names| > 1 {
      JoinedNamesLength(names[1..], sep);
    }
  }

  /** The `assets` value of `list`: the asset names joined with ',', three letters per asset and a comma between. */
  function AssetsValue(assets: seq<Currency>): (v: string)
    ensures |v| == if |assets| == 0 then 0 else 4 * |assets| - 1
  {
    var names := CurrencyNames(assets);
    if |names| > 0 then JoinedNamesLength(names, ','); Join(names, ',') else Join(names, ',')
  }

  /** The pairs `list` appends: none without the filter, exactly one `assets` pair with it, which reads back as the filter. */
  function AssetsQuery(assets: Option<seq<Currency>>): (q: seq<(string, string)>)
    ensures assets.None? ==> q == []
    ensures assets.Some? ==> |q| == 1 && q[0].0 == "assets" && DecodeAssets(q[0].1) == assets
  {
    if assets.Some? then
      AssetsValueDecodes(assets.value);
      [("assets", AssetsValue(assets.value))]
    else []
  }

  /** Parses every name of a list of currency names. */
  function ParseCurrencies(names: seq<string>): Option<seq<Currency>> {
    if |names| == 0 then Some([])
    else match ParseCurrency(names[0])
      case Err(_) => None
      case Ok(c) =>
        match ParseCurrencies(names[1..])
        case None => None
        case Some(rest) => Some([c] + rest)
  }

  /** Reads an `assets` value back into the list of assets. */
  function DecodeAssets(v: string): Option<seq<Currency>> {
    if v == "" then Some([]) else ParseCurrencies(Split(v, ','))
  }

  lemma NamesFreeOfComma(assets: seq<Currency>)
    ensures FreeOf(CurrencyNames(assets), ',')
  {
    var names := CurrencyNames(assets);
    forall i | 0 <= i < |names| ensures ',' !in names[i] {
      assert IsUpperWord(names[i]);
    }
  }

  lemma {:induction false} ParseCurrencyNames(assets: seq<Currency>)
    ensures ParseCurrencies(CurrencyNames(assets)) == Some(assets)
  {
    if |assets| > 0 {
      CurrencyRoundTrip(assets[0]);
      ParseCurrencyNames(assets[1..]);
      assert CurrencyNames(assets)[1..] == CurrencyNames(assets[1..]);
      assert [assets[0]] + assets[1..] == assets;
    }
  }

  /** The joined value reads back as exactly the assets given, in their order; an empty list gives "". */
  lemma AssetsValueDecodes(assets: seq<Currency>)
    ensures assets == [] <==> AssetsValue(assets) == ""
    ensures DecodeAssets(AssetsValue(assets)) == Some(assets)
  {
    if |assets| > 0 {
      var names := CurrencyNames(assets);
      NamesFreeOfComma(assets);
      JoinEnds(names, ',');
      SplitJoin(names, ',');
      ParseCurrencyNames(assets);
    }
  }

  /** For n > 0 assets the value holds exactly n - 1 commas and neither starts nor ends with one. */
  lemma AssetsValueCommas(assets: seq<Currency>)
    requires |assets| > 0
    ensures CountChar(AssetsValue(assets), ',') == |assets| - 1
    ensures AssetsValue(assets)[0] != ','
    ensures AssetsValue(assets)[|AssetsValue(assets)| - 1] != ','
  {
    var names := CurrencyNames(assets);
    var v := AssetsValue(assets);
    NamesFreeOfComma(assets);
    JoinSeparatorCount(names, ',');
    JoinEnds(names, ',');
    var last := names[|names| - 1];
    assert v[..3] == names[0] && v[0] == names[0][0];
    assert v[|v| - |last|..] == last && v[|v| - 1] == last[2];
  }

  /** `ListBalancesBuilder`: an optional asset filter over the balances URL. */
  class ListBalancesBuilder {
    var url: Url
    var assets: Option<seq<Currency>>

    /** A builder without the filter. */
    constructor (url: Url)
      ensures this.url == url && this.assets == None
    {
      this.url := url;
      this.assets := None;
    }

    /** `with_assets`: sets the filter, replacing an earlier list. */
    method WithAssets(xs: seq<Currency>)
      modifies this
      ensures assets == Some(xs) && url == old(url)
    {
      assets := Some(xs);
    }

    /** `list`: the URL requested, a copy of the stored one with the filter appended; the builder is not changed. */
    method List() returns (request: Url)
      ensures request.scheme == url.scheme && request.host == url.host && request.segments == url.segments
      ensures request.query == url.query + AssetsQuery(assets)
    {
      request := url;
      if assets.Some? {
        request := request.AppendPair("assets", AssetsValue(assets.value));
      }
    }
  }
}
