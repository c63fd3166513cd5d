/** The Lightning send and receive form builders. */
module Lightning {
  import opened Wrappers
  import opened Numbers
  import opened Market
  import opened Urls

  /** Every key a Lightning send form can hold. */
  const SendKeys: set<string> := {"payment_request", "currency", "description", "external_id"}

  /** Every key a Lightning receive form can hold. */
  const ReceiveKeys: set<string> := {"amount", "expires_at", "currency", "description"}

  /** A `currency` entry, when present, is a currency name. */
  ghost predicate CurrencyEntryValid(params: map<string, string>) {
    "currency" in params ==> ParseCurrency(params["currency"]).Ok?
  }

  /** `LightningSendBuilder`: the form of a Lightning payment. */
  class LightningSendBuilder {
    var url: Url
    var params: map<string, string>

    /** The payment request seeded by the client stays, and only known keys appear. */
    ghost predicate Valid()
      reads this
    {
      "payment_request" in params && params.Keys <= SendKeys && CurrencyEntryValid(params)
    }

    /** The struct literal of client.rs. */
    constructor (url: Url, params: map<string, string>)
      ensures this.url == url && this.params == params
    {
      this.url := url;
      this.params := params;
    }

    /** `with_currency`: sets `currency` to the currency's name, replacing an earlier one. */
    method WithCurrency(currency: Currency)
      requires Valid()
      modifies this
      ensures Valid()
      ensures params == old(params)["currency" := CurrencyName(currency)] && url == old(url)
    {
      CurrencyRoundTrip(currency);
      params := params["currency" := CurrencyName(currency)];
    }

    /** `with_description`: sets `description`, replacing an earlier one. */
    method WithDescription(description: string)
      requires Valid()
      modifies this
      ensures Valid()
      ensures params == old(params)["description" := description] && url == old(url)
    {
      params := params["description" := description];
    }

    /** `with_external_id`: sets `external_id`, replacing an earlier one. */
    method WithExternalId(externalId: string)
      requires Valid()
      modifies this
      ensures Valid()
      ensures params == old(params)["external_id" := externalId] && url == old(url)
    {
      params := params["external_id" := externalId];
    }

    /** `send`: one form POST of the current params to the stored URL; nothing is changed. */
    method Send() returns (request: FormPost)
      ensures request.url == url && request.form == params
    {
      request := FormPost(url, params);
    }
  }

  /** `LightningReceiveBuilder`: the form of a Lightning invoice request. */
  class LightningReceiveBuilder {
    var url: Url
    var params: map<string, string>

    /** Amount and expiry seeded by the client stay, the expiry is a decimal integer, and only known keys appear. */
    ghost predicate Valid()
      reads this
    {
      && "amount" in params && "expires_at" in params && params.Keys <= ReceiveKeys
      && ParseInt(params["expires_at"]).Some?
      && CurrencyEntryValid(params)
    }

    /** The struct literal of client.rs. */
    constructor (url: Url, params: map<string, string>)
      ensures this.url == url && this.params == params
    {
      this.url := url;
      this.params := params;
    }

    /** `with_currency`: sets `currency` to the currency's name, replacing an earlier one. */
    method WithCurrency(currency: Currency)
      requires Valid()
      modifies this
      ensures Valid()
      ensures params == old(params)["currency" := CurrencyName(currency)] && url == old(url)
    {
      CurrencyRoundTrip(currency);
      params := params["currency" := CurrencyName(currency)];
    }

    /** `with_description`: sets `description`, replacing an earlier one. */
    method WithDescription(description: string)
      requires Valid()
      modifies this
      ensures Valid()
      ensures params == old(params)["description" := description] && url == old(url)
    {
      params := params["description" := description];
    }

    /** `with_expires_at`: replaces the seeded expiry by the decimal string of `expiresAt`. */
    method WithExpiresAt(expiresAt: u64)
      requires Valid()
      modifies this
      ensures Valid()
      ensures params == old(params)["expires_at" := IntToString(expiresAt)] && url == old(url)
      ensures ParseInt(params["expires_at"]) == Some(expiresAt)
    {
      IntToStringRoundTrip(expiresAt);
      params := params["expires_at" := IntToString(expiresAt)];
    }

    /** `create`: one form POST of the current params to the stored URL; nothing is changed. */
    method Create() returns (request: FormPost)
      ensures request.url == url && request.form == params
    {
      request := FormPost(url, params);
    }
  }
}
