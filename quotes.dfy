/** The create-quote form builder. */
module Quotes {
  import opened Urls

  /** `CreateQuoteBuilder`: the form of a quote request. */
  class CreateQuoteBuilder {
    var url: Url
    var params: map<string, string>

    /** The struct literal that creates the builder. */
    constructor (url: Url, params: map<string, string>)
      ensures this.url == url && this.params == params
    {
      this.url := url;
      this.params := params;
    }

    /** `with_base_account`: sets `base_account_id`; a repeated call overwrites and adds no key. */
    method WithBaseAccount(id: string)
      modifies this
      ensures params == old(params)["base_account_id" := id] && url == old(url)
      ensures |params| == |old(params)| + (if "base_account_id" in old(params) then 0 else 1)
    {
      params := params["base_account_id" := id];
    }

    /** `with_counter_account`: sets `counter_account_id`; a repeated call overwrites and adds no key. */
    method WithCounterAccount(id: string)
      modifies this
      ensures params == old(params)["counter_account_id" := id] && url == old(url)
      ensures |params| == |old(params)| + (if "counter_account_id" in old(params) then 0 else 1)
    {
      params := params["counter_account_id" := id];
    }

    /** `post`: one form POST of the current params to the stored URL; although `&mut self`, nothing is changed. */
    method Post() returns (request: FormPost)
      ensures request.url == url && request.form == params
    {
      request := FormPost(url, params);
    }
  }
}
