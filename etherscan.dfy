/**
 * third-party/etherscan.go: the Etherscan provider, its request-URL query and
 * the fetch step. The HTTP client and the transport call are outside the model:
 * a fetch is given as the result the transport produced.
 */
module Etherscan {

  import opened Wrappers
  import opened Errors
  import opened Models

  const DefaultBaseURL: string := "https://api.etherscan.io/api"

  /** The list parameters every Etherscan provider is built with. */
  const DefaultListParams: map<string, string> :=
    map["startblock" := "0", "endblock" := "99999999", "sort" := "asc", "module" := "account"]

  /** The provider's state; the *http.Client is not modelled. A nil ListParams is the empty map. */
  datatype EtherscanProvider = EtherscanProvider(apiKey: string, baseURL: string, listParams: map<string, string>)

  /** NewEtherscanProvider: the configured key and base URL, the official URL when none is configured. */
  function NewEtherscanProvider(config: ThirdPartyApiConfig): (p: EtherscanProvider)
    ensures p.baseURL != ""
    ensures config.baseURL != "" ==> p.baseURL == config.baseURL
    ensures config.baseURL == "" ==> p.baseURL == DefaultBaseURL
    ensures p.apiKey == config.apiKey
    ensures p.listParams == DefaultListParams
  {
    var baseURL := if config.baseURL == "" then DefaultBaseURL else config.baseURL;
    EtherscanProvider(config.apiKey, baseURL, DefaultListParams)
  }

  /** A request URL: the base and the query parameters that url.Values.Encode would write after the '?'. */
  datatype RequestURL = RequestURL(base: string, query: map<string, string>)

  /** The three parameters of every call. */
  function CallParams(p: EtherscanProvider, action: string, walletAddress: string): map<string, string>
  {
    map["address" := walletAddress, "action" := action, "apikey" := p.apiKey]
  }

  /** The query BuildRequestURL produces: the call parameters with the list parameters set over them. */
  function QuerySpec(p: EtherscanProvider, action: string, walletAddress: string): map<string, string>
  {
    CallParams(p, action, walletAddress) + p.listParams
  }

  /**
   * BuildRequestURL: sets the three call parameters, then every list parameter
   * in the map's (unspecified) iteration order.
   */
  method BuildRequestURL(p: EtherscanProvider, action: string, walletAddress: string) returns (url: RequestURL)
    ensures url.base == p.baseURL
    ensures url.query == QuerySpec(p, action, walletAddress)
  {
    var query: map<string, string> := map[];
    query := query["address" := walletAddress];
    query := query["action" := action];
    query := query["apikey" := p.apiKey];
    var pending := p.listParams.Keys;
    NoneSetYet(CallParams(p, action, walletAddress), p.listParams);
    while pending != {}
      invariant pending <= p.listParams.Keys
      invariant query == CallParams(p, action, walletAddress) + (p.listParams - pending)
      decreases |pending|
    {
      var key :| key in pending;
      SetOneMore(CallParams(p, action, walletAddress), p.listParams, pending, key);
      query := query[key := p.listParams[key]];
      pending := pending - {key};
    }
    assert p.listParams - {} == p.listParams;
    url := RequestURL(p.baseURL, query);
  }

  lemma NoneSetYet(call: map<string, string>, list: map<string, string>)
    ensures call + (list - list.Keys) == call
  {
    assert list - list.Keys == map[];
  }

  /** Setting one more pending list parameter over the query built so far. */
  lemma SetOneMore(call: map<string, string>, list: map<string, string>, pending: set<string>, key: string)
    requires key in pending && pending <= list.Keys
    ensures (call + (list - pending))[key := list[key]] == call + (list - (pending - {key}))
  {
    assert list - (pending - {key}) == (list - pending)[key := list[key]];
  }

  /** The query holds the three call keys and the list keys, and nothing else. */
  lemma QueryKeys(p: EtherscanProvider, action: string, walletAddress: string)
    ensures QuerySpec(p, action, walletAddress).Keys == {"address", "action", "apikey"} + p.listParams.Keys
  {
  }

  /** A call parameter that no list parameter shadows carries the call's value. */
  lemma QueryCallValues(p: EtherscanProvider, action: string, walletAddress: string)
    ensures "address" !in p.listParams ==> QuerySpec(p, action, walletAddress)["address"] == walletAddress
    ensures "action" !in p.listParams ==> QuerySpec(p, action, walletAddress)["action"] == action
    ensures "apikey" !in p.listParams ==> QuerySpec(p, action, walletAddress)["apikey"] == p.apiKey
  {
  }

  /** List parameters are set last, so they win on every clash. */
  lemma ListParamsWin(p: EtherscanProvider, action: string, walletAddress: string, key: string)
    requires key in p.listParams
    ensures QuerySpec(p, action, walletAddress)[key] == p.listParams[key]
  {
  }

  /** Without list parameters only the three call keys are sent. */
  lemma NoListParams(p: EtherscanProvider, action: string, walletAddress: string)
    requires p.listParams == map[]
    ensures QuerySpec(p, action, walletAddress) == CallParams(p, action, walletAddress)
  {
    assert CallParams(p, action, walletAddress) + map[] == CallParams(p, action, walletAddress);
  }

  /** A provider from NewEtherscanProvider sends exactly these seven parameters. */
  lemma DefaultQuery(config: ThirdPartyApiConfig, action: string, walletAddress: string)
    ensures var q := QuerySpec(NewEtherscanProvider(config), action, walletAddress);
      q == map["address" := walletAddress, "action" := action, "apikey" := config.apiKey,
               "startblock" := "0", "endblock" := "99999999", "sort" := "asc", "module" := "account"]
  {
    var q := QuerySpec(NewEtherscanProvider(config), action, walletAddress);
    assert q.Keys == {"address", "action", "apikey", "startblock", "endblock", "sort", "module"};
  }

  /** FetchTransactionData, given what the transport produced: the body unchanged, or "" and the error. */
  function FetchTransactionData(response: Result<string, Error>): (r: (string, Option<Error>))
    ensures r.1.None? <==> response.Ok?
    ensures response.Ok? ==> r.0 == response.value
    ensures response.Err? ==> r.0 == "" && r.1 == Some(response.error)
  {
    match response
    case Ok(body) => (body, None)
    case Err(e) => ("", Some(e))
  }
}
