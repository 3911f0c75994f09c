/** The market-data service of services/stockService.js: it unwraps the
    transport client's envelope, raising a failure as an error, and hands a
    success to the movers or overview normalisation. */
module StockService {
  import opened Js
  import ApiService
  import opened Movers
  import opened Overview

  /** What `fetchTopGainersLosers` settles to once the client's promise has
      settled: a raised error is re-raised, a failure envelope raises its
      message, and only a success is formatted. */
  function MoversFromResponse(response: Settled<ApiService.Envelope>, fixed2: Fixed2): (r: Settled<MoversSnapshot>)
    ensures response.Rejected? ==> r == Rejected(response.error)
    ensures response.Resolved? && response.value.Failed? ==> r == Rejected(response.value.error)
    ensures r.Resolved? ==> response.Resolved? && response.value.Succeeded?
    ensures response.Resolved? && response.value.Succeeded? ==>
      r == FormatStockData(response.value.data, fixed2)
  {
    match response
    case Rejected(error) => Rejected(error)
    case Resolved(envelope) =>
      if envelope.Failed? then Rejected(envelope.error) else FormatStockData(envelope.data, fixed2)
  }

  /** What `fetchCompanyOverview` settles to once the client's promise has
      settled. */
  function OverviewFromResponse(response: Settled<ApiService.Envelope>): (r: Settled<CompanyOverview>)
    ensures response.Rejected? ==> r == Rejected(response.error)
    ensures response.Resolved? && response.value.Failed? ==> r == Rejected(response.value.error)
    ensures r.Resolved? <==> response.Resolved? && response.value.Succeeded?
    ensures r.Resolved? ==> r.value == FormatCompanyOverview(response.value.data)
  {
    match response
    case Rejected(error) => Rejected(error)
    case Resolved(envelope) =>
      if envelope.Failed? then Rejected(envelope.error) else Resolved(FormatCompanyOverview(envelope.data))
  }

  /** `fetchTopGainersLosers()` against the client `api`. */
  method FetchTopGainersLosers(api: ApiService.ApiService, network: (ApiService.Request, nat) -> ApiService.FetchOutcome,
                               fixed2: Fixed2)
    returns (sent: ApiService.Request, r: Settled<MoversSnapshot>)
    ensures api.Sends(sent, ApiService.Endpoint(api.endpoints, "TOP_GAINERS_LOSERS"), [])
    ensures |sent.query| == 2
    ensures r == MoversFromResponse(ApiService.Classify(network(sent, api.timeout)), fixed2)
  {
    var response;
    sent, response := api.GetTopGainersLosers(network);
    r := MoversFromResponse(response, fixed2);
  }

  /** `fetchCompanyOverview(symbol)` against the client `api`. */
  method FetchCompanyOverview(api: ApiService.ApiService, symbol: string,
                              network: (ApiService.Request, nat) -> ApiService.FetchOutcome)
    returns (sent: ApiService.Request, r: Settled<CompanyOverview>)
    ensures api.Sends(sent, ApiService.Endpoint(api.endpoints, "COMPANY_OVERVIEW"), [("symbol", symbol)])
    ensures |sent.query| == 3 && sent.query[2] == ("symbol", symbol)
    ensures r == OverviewFromResponse(ApiService.Classify(network(sent, api.timeout)))
  {
    var response;
    sent, response := api.GetCompanyOverview(symbol, network);
    r := OverviewFromResponse(response);
  }

  /** A timeout reaches the caller of either fetch as the client's timeout
      error. */
  lemma TimeoutReachesCaller(fixed2: Fixed2)
    ensures MoversFromResponse(ApiService.Classify(ApiService.Aborted), fixed2)
         == Rejected(Text(ApiService.TimeoutMessage))
    ensures OverviewFromResponse(ApiService.Classify(ApiService.Aborted))
         == Rejected(Text(ApiService.TimeoutMessage))
  {
  }

  /** A response that is not ok makes either fetch raise the HTTP-error
      message naming the status, from which the status can be read back. */
  lemma HttpErrorReachesCaller(status: nat, body: ApiService.Body, fixed2: Fixed2)
    requires !ApiService.IsOk(status)
    ensures MoversFromResponse(ApiService.Classify(ApiService.Responded(status, body)), fixed2)
         == Rejected(Text(ApiService.HttpErrorMessage(status)))
    ensures OverviewFromResponse(ApiService.Classify(ApiService.Responded(status, body)))
         == Rejected(Text(ApiService.HttpErrorMessage(status)))
    ensures var r := MoversFromResponse(ApiService.Classify(ApiService.Responded(status, body)), fixed2);
      r.Rejected? && r.error.Text? && ApiService.StatusNamedBy(r.error.s) == Some(status)
    ensures var r := OverviewFromResponse(ApiService.Classify(ApiService.Responded(status, body)));
      r.Rejected? && r.error.Text? && ApiService.StatusNamedBy(r.error.s) == Some(status)
  {
    ApiService.HttpErrorFails(status, body);
  }
}
