/**
 * The wire enums of the market: currencies and trading pairs. Their string
 * form is the exact upper-case variant name, both when rendered (`Display`)
 * and when parsed (`EnumString`, case-sensitive, any other string is
 * rejected).
 */
module Market {
  import opened Wrappers

  /** The parse error of a derived `EnumString`: the string names no variant. */
  datatype ParseError = VariantNotFound

  /** Supported asset codes. */
  datatype Currency =
    | AUD | BCH | BTC | ETH | EUR | GBP | IDR | LTC | MYR
    | NGN | UGX | XBT | XRP | ZAR | ZMW

  /** Supported market symbols (base asset followed by counter asset). */
  datatype TradingPair =
    | BCHXBT | ETHAUD | ETHEUR | ETHGBP | ETHIDR | ETHMYR | ETHNGN | ETHXBT | ETHZAR
    | LTCMYR | LTCXBT | LTCNGN | LTCZAR | XBTAUD | XBTEUR | XBTGBP | XBTIDR | XBTMYR
    | XBTNGN | XBTSGD | XBTUGX | XBTZAR | XBTZMW | XRPMYR | XRPNGN | XRPXBT | XRPZAR

  predicate IsUpper(c: char) { 'A' <= c <= 'Z' }

  predicate IsUpperWord(s: string) { forall i :: 0 <= i < |s| ==> IsUpper(s[i]) }

  /** `Currency::to_string`: the variant name, three upper-case letters. */
  function CurrencyName(c: Currency): (s: string)
    ensures |s| == 3 && IsUpperWord(s)
  {
    match c
    case AUD => "AUD"
    case BCH => "BCH"
    case BTC => "BTC"
    case ETH => "ETH"
    case EUR => "EUR"
    case GBP => "GBP"
    case IDR => "IDR"
    case LTC => "LTC"
    case MYR => "MYR"
    case NGN => "NGN"
    case UGX => "UGX"
    case XBT => "XBT"
    case XRP => "XRP"
    case ZAR => "ZAR"
    case ZMW => "ZMW"
  }

  /** `Currency::from_str`. */
  function ParseCurrency(s: string): (r: Result<Currency, ParseError>)
    ensures r.Ok? ==> CurrencyName(r.value) == s
  {
    match s
    case "AUD" => Ok(AUD)
    case "BCH" => Ok(BCH)
    case "BTC" => Ok(BTC)
    case "ETH" => Ok(ETH)
    case "EUR" => Ok(EUR)
    case "GBP" => Ok(GBP)
    case "IDR" => Ok(IDR)
    case "LTC" => Ok(LTC)
    case "MYR" => Ok(MYR)
    case "NGN" => Ok(NGN)
    case "UGX" => Ok(UGX)
    case "XBT" => Ok(XBT)
    case "XRP" => Ok(XRP)
    case "ZAR" => Ok(ZAR)
    case "ZMW" => Ok(ZMW)
    case _ => Err(VariantNotFound)
  }

  /** `TradingPair::to_string`: the variant name, six upper-case letters. */
  function PairName(p: TradingPair): (s: string)
    ensures |s| == 6 && IsUpperWord(s)
  {
    match p
    case BCHXBT => "BCHXBT"
    case ETHAUD => "ETHAUD"
    case ETHEUR => "ETHEUR"
    case ETHGBP => "ETHGBP"
    case ETHIDR => "ETHIDR"
    case ETHMYR => "ETHMYR"
    case ETHNGN => "ETHNGN"
    case ETHXBT => "ETHXBT"
    case ETHZAR => "ETHZAR"
    case LTCMYR => "LTCMYR"
    case LTCXBT => "LTCXBT"
    case LTCNGN => "LTCNGN"
    case LTCZAR => "LTCZAR"
    case XBTAUD => "XBTAUD"
    case XBTEUR => "XBTEUR"
    case XBTGBP => "XBTGBP"
    case XBTIDR => "XBTIDR"
    case XBTMYR => "XBTMYR"
    case XBTNGN => "XBTNGN"
    case XBTSGD => "XBTSGD"
    case XBTUGX => "XBTUGX"
    case XBTZAR => "XBTZAR"
    case XBTZMW => "XBTZMW"
    case XRPMYR => "XRPMYR"
    case XRPNGN => "XRPNGN"
    case XRPXBT => "XRPXBT"
    case XRPZAR => "XRPZAR"
  }

  /** `TradingPair::from_str`. */
  function ParsePair(s: string): Result<TradingPair, ParseError> {
    match s
    case "BCHXBT" => Ok(BCHXBT)
    case "ETHAUD" => Ok(ETHAUD)
    case "ETHEUR" => Ok(ETHEUR)
    case "ETHGBP" => Ok(ETHGBP)
    case "ETHIDR" => Ok(ETHIDR)
    case "ETHMYR" => Ok(ETHMYR)
    case "ETHNGN" => Ok(ETHNGN)
    case "ETHXBT" => Ok(ETHXBT)
    case "ETHZAR" => Ok(ETHZAR)
    case "LTCMYR" => Ok(LTCMYR)
    case "LTCXBT" => Ok(LTCXBT)
    case "LTCNGN" => Ok(LTCNGN)
    case "LTCZAR" => Ok(LTCZAR)
    case "XBTAUD" => Ok(XBTAUD)
    case "XBTEUR" => Ok(XBTEUR)
    case "XBTGBP" => Ok(XBTGBP)
    case "XBTIDR" => Ok(XBTIDR)
    case "XBTMYR" => Ok(XBTMYR)
    case "XBTNGN" => Ok(XBTNGN)
    case "XBTSGD" => Ok(XBTSGD)
    case "XBTUGX" => Ok(XBTUGX)
    case "XBTZAR" => Ok(XBTZAR)
    case "XBTZMW" => Ok(XBTZMW)
    case "XRPMYR" => Ok(XRPMYR)
    case "XRPNGN" => Ok(XRPNGN)
    case "XRPXBT" => Ok(XRPXBT)
    case "XRPZAR" => Ok(XRPZAR)
    case _ => Err(VariantNotFound)
  }

  /** Parsing the rendered name of a currency gives back that currency. */
  lemma CurrencyRoundTrip(c: Currency)
    ensures ParseCurrency(CurrencyName(c)) == Ok(c)
  {
  }

  /** A string parses as a currency exactly when it is the name of one. */
  lemma ParseCurrencyExact(s: string)
    ensures ParseCurrency(s).Ok? <==> exists c :: CurrencyName(c) == s
  {
    if c :| CurrencyName(c) == s {
      CurrencyRoundTrip(c);
    }
  }

  /** Distinct currencies have distinct names. */
  lemma CurrencyNameInjective(a: Currency, b: Currency)
    requires CurrencyName(a) == CurrencyName(b)
    ensures a == b
  {
    CurrencyRoundTrip(a);
    CurrencyRoundTrip(b);
  }

  /** Parsing the rendered name of a pair gives back that pair. */
  lemma PairRoundTrip(p: TradingPair)
    ensures ParsePair(PairName(p)) == Ok(p)
  {
  }

  /** Parsing succeeds only on a variant name, and then yields the variant of that name. */
  lemma ParsePairSound(s: string)
    ensures ParsePair(s).Ok? ==> PairName(ParsePair(s).value) == s
  {
  }

  /** A string parses as a pair exactly when it is the name of one. */
  lemma ParsePairExact(s: string)
    ensures ParsePair(s).Ok? <==> exists p :: PairName(p) == s
  {
    ParsePairSound(s);
    if p :| PairName(p) == s {
      PairRoundTrip(p);
    }
  }

  /** Distinct pairs have distinct names. */
  lemma PairNameInjective(a: TradingPair, b: TradingPair)
    requires PairName(a) == PairName(b)
    ensures a == b
  {
    PairRoundTrip(a);
    PairRoundTrip(b);
  }

  /** Matching is case-sensitive: a lower-case or mixed-case name is rejected. */
  lemma ParsingIsCaseSensitive()
    ensures ParseCurrency("xbt") == Err(VariantNotFound)
    ensures ParseCurrency("Xbt") == Err(VariantNotFound)
    ensures ParsePair("xbtzar") == Err(VariantNotFound)
    ensures ParsePair("XbtZar") == Err(VariantNotFound)
  {
  }

  /** A string that is not upper-case letters only never parses. */
  lemma ParseRejectsNonUpperWords(s: string)
    requires !IsUpperWord(s)
    ensures ParseCurrency(s) == Err(VariantNotFound)
    ensures ParsePair(s) == Err(VariantNotFound)
  {
    ParsePairSound(s);
  }
}
