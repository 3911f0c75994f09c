/** The transport client of services/apiService.js: it builds the query of a
    GET request to the market-data provider and turns what `fetch` settles to
    into a success or failure envelope, or raises on a timeout. */
module ApiService {
  import opened Js
  import Decimal

  /** How `fetch` settles for one request. The network itself is not part of
      the model: callers supply this value. */
  datatype FetchOutcome =
    | Aborted                              // the abort timer fired first (an AbortError)
    | FetchFailed(message: string)         // fetch rejected for another reason
    | Responded(status: nat, body: Body)   // fetch resolved with a response

  /** What `await response.json()` gives. It is read only for an ok status. */
  datatype Body = Parsed(value: Json) | Unparsable(message: string)

  /** `response.ok`: the status is in the range 200 to 299 (Fetch standard). */
  predicate IsOk(status: nat) { 200 <= status <= 299 }

  /** The envelope `makeRequest` resolves to. */
  datatype Envelope =
    | Succeeded(data: Payload, status: nat)
    | Failed(error: Message, status: nat)

  const TimeoutMessage := "Request timeout - please check your internet connection"
  const RateLimitMessage := "API call frequency limit reached. Please try again later."
  const HttpErrorPrefix := "HTTP error! status: "

  /** `error.status || 500`: no error the client catches carries a status. */
  const FailureStatus: nat := 500

  /** The message thrown for a response that is not ok. */
  function HttpErrorMessage(status: nat): string {
    HttpErrorPrefix + Decimal.Show(status)
  }

  /** The status an HTTP-error message names, if it is one. */
  function StatusNamedBy(message: string): Option<nat> {
    var n := |HttpErrorPrefix|;
    if |message| > n && message[..n] == HttpErrorPrefix && Decimal.AllDigits(message[n..])
    then Some(Decimal.Value(message[n..]))
    else None
  }

  /** The status of a failed response can be read back from its message. */
  lemma {:induction false} HttpErrorNamesStatus(status: nat)
    ensures StatusNamedBy(HttpErrorMessage(status)) == Some(status)
  {
    var m := HttpErrorMessage(status);
    var n := |HttpErrorPrefix|;
    assert m[..n] == HttpErrorPrefix;
    assert m[n..] == Decimal.Show(status);
    Decimal.ValueOfShow(status);
  }

  /** The `message` of `new Error(v)` for a defined `v`, or, when converting
      `v` to a string throws, the message of the TypeError the envelope then
      carries instead. Only a truthy, hence defined, value reaches it. */
  function ThrownMessage(v: Option<Json>): (m: Message)
    requires v.Some?
    ensures Converts(v) ==> m == Text(StringOf(v).value)
    ensures !Converts(v) ==> m == EngineText(NoPrimitive)
  {
    match StringOf(v)
    case Resolved(text) => Text(text)
    case Rejected(fault) => fault
  }

  /** The body a successful envelope accepts: neither soft-error field is truthy. */
  ghost predicate Accepted(outcome: FetchOutcome) {
    && outcome.Responded?
    && IsOk(outcome.status)
    && outcome.body.Parsed?
    && !outcome.body.value.JNull?
    && !Truthy(Member(outcome.body.value, "Error Message"))
    && !Truthy(Member(outcome.body.value, "Note"))
  }

  /** What `makeRequest` settles to once `fetch` has settled: a timeout is
      raised; every other failure becomes a failure envelope, checked in the
      order HTTP status, `Error Message`, `Note`. */
  function Classify(outcome: FetchOutcome): (r: Settled<Envelope>)
    ensures r.Rejected? <==> outcome.Aborted?
    ensures r.Rejected? ==> r.error == Text(TimeoutMessage)
    ensures r.Resolved? && r.value.Failed? ==> r.value.status == FailureStatus
    ensures r.Resolved? && r.value.Succeeded? <==> Accepted(outcome)
    ensures r.Resolved? && r.value.Succeeded? ==>
      r.value.data == outcome.body.value && r.value.status == outcome.status
  {
    match outcome
    case Aborted => Rejected(Text(TimeoutMessage))
    case FetchFailed(message) => Resolved(Failed(Text(message), FailureStatus))
    case Responded(status, body) =>
      if !IsOk(status) then
        Resolved(Failed(Text(HttpErrorMessage(status)), FailureStatus))
      else
        match body
        case Unparsable(message) => Resolved(Failed(Text(message), FailureStatus))
        case Parsed(data) =>
          if data.JNull? then
            Resolved(Failed(EngineText(ReadOfNull("Error Message")), FailureStatus))
          else if Truthy(Member(data, "Error Message")) then
            Resolved(Failed(ThrownMessage(Member(data, "Error Message")), FailureStatus))
          else if Truthy(Member(data, "Note")) then
            Resolved(Failed(Text(RateLimitMessage), FailureStatus))
          else
            Resolved(Succeeded(data, status))
  }

  /** A response that is not ok fails with a message naming its status,
      whatever its body. */
  lemma HttpErrorFails(status: nat, body: Body)
    requires !IsOk(status)
    ensures Classify(Responded(status, body)).Resolved?
    ensures Classify(Responded(status, body)).value.Failed?
    ensures Classify(Responded(status, body)).value.error.Text?
    ensures Classify(Responded(status, body)).value.error == Text(HttpErrorMessage(status))
    ensures StatusNamedBy(Classify(Responded(status, body)).value.error.s) == Some(status)
  {
    HttpErrorNamesStatus(status);
  }

  /** A truthy `Error Message` wins over `Note`: the failure carries the
      provider's message converted to a string, whatever `Note` holds; a
      string message is carried as it is, and one with no string form gives
      the conversion's TypeError. */
  lemma ErrorMessageFirst(status: nat, fields: map<string, Json>)
    requires IsOk(status)
    requires Truthy(Member(JObj(fields), "Error Message"))
    ensures Classify(Responded(status, Parsed(JObj(fields))))
         == Resolved(Failed(ThrownMessage(Member(JObj(fields), "Error Message")), FailureStatus))
    ensures fields["Error Message"].JStr? ==>
      Classify(Responded(status, Parsed(JObj(fields))))
        == Resolved(Failed(Text(fields["Error Message"].s), FailureStatus))
    ensures !Stringable(fields["Error Message"]) ==>
      Classify(Responded(status, Parsed(JObj(fields))))
        == Resolved(Failed(EngineText(NoPrimitive), FailureStatus))
  {
  }

  /** A truthy `Note` without an error message fails with the fixed
      rate-limit message, whatever the note says. */
  lemma NoteMeansRateLimit(status: nat, fields: map<string, Json>)
    requires IsOk(status)
    requires !Truthy(Member(JObj(fields), "Error Message"))
    requires Truthy(Member(JObj(fields), "Note"))
    ensures Classify(Responded(status, Parsed(JObj(fields))))
         == Resolved(Failed(Text(RateLimitMessage), FailureStatus))
  {
  }

  /** Configuration the client is constructed with (the module constants of
      config/api.js in the repository). */
  datatype ApiConfig = ApiConfig(
    baseUrl: string,
    apiKey: string,
    endpoints: map<string, string>,
    timeout: nat)

  /** A GET request: the base URL and its query parameters in order. */
  datatype Request = Request(base: string, query: seq<(string, string)>)

  /** The value `URLSearchParams.append` stores for a possibly undefined string. */
  function ParamText(v: Option<string>): string {
    if v.Some? then v.value else UndefinedText
  }

  /** `ENDPOINTS[name]`, undefined when the table has no such entry. */
  function Endpoint(endpoints: map<string, string>, name: string): Option<string> {
    if name in endpoints then Some(endpoints[name]) else None
  }

  /** `url.searchParams`: an ordered list of name-value pairs. */
  class SearchParams {
    var entries: seq<(string, string)>

    constructor ()
      ensures entries == []
    {
      entries := [];
    }

    method Append(name: string, value: string)
      modifies this
      ensures entries == old(entries) + [(name, value)]
    {
      entries := entries + [(name, value)];
    }
  }

  /** The client object: its configuration is fixed at construction and no
      method changes it. */
  class ApiService {
    const baseUrl: string
    const apiKey: string
    const timeout: nat
    const endpoints: map<string, string>

    constructor (config: ApiConfig)
      ensures baseUrl == config.baseUrl && apiKey == config.apiKey
      ensures timeout == config.timeout && endpoints == config.endpoints
    {
      baseUrl := config.baseUrl;
      apiKey := config.apiKey;
      timeout := config.timeout;
      endpoints := config.endpoints;
    }

    /** `sent` goes to the base URL with `function`, then `apikey`, then the
        caller's parameters in key order, and nothing else. */
    ghost predicate Sends(sent: Request, endpoint: Option<string>, params: seq<(string, string)>) {
      && sent.base == baseUrl
      && |sent.query| == |params| + 2
      && sent.query[0] == ("function", ParamText(endpoint))
      && sent.query[1] == ("apikey", apiKey)
      && sent.query[2..] == params
    }

    /** Lines 20-27 of `makeRequest`; `params` lists the entries of the
        caller's object in `Object.keys` order. */
    method BuildRequest(endpoint: Option<string>, params: seq<(string, string)>)
      returns (sent: Request)
      ensures Sends(sent, endpoint, params)
    {
      var search := new SearchParams();
      search.Append("function", ParamText(endpoint));
      search.Append("apikey", apiKey);
      var i := 0;
      while i < |params|
        invariant 0 <= i <= |params|
        invariant search.entries == [("function", ParamText(endpoint)), ("apikey", apiKey)] + params[..i]
      {
        search.Append(params[i].0, params[i].1);
        i := i + 1;
      }
      assert params[..i] == params;
      sent := Request(baseUrl, search.entries);
    }

    /** `makeRequest(endpoint, params)`. `network(r, ms)` is how `fetch`
        settles for request `r` with the abort timer set to `ms` milliseconds. */
    method MakeRequest(endpoint: Option<string>, params: seq<(string, string)>,
                       network: (Request, nat) -> FetchOutcome)
      returns (sent: Request, result: Settled<Envelope>)
      ensures Sends(sent, endpoint, params)
      ensures result == Classify(network(sent, timeout))
    {
      sent := BuildRequest(endpoint, params);
      result := Classify(network(sent, timeout));
    }

    /** `getTopGainersLosers()`: no parameters beyond `function` and `apikey`. */
    method GetTopGainersLosers(network: (Request, nat) -> FetchOutcome)
      returns (sent: Request, result: Settled<Envelope>)
      ensures Sends(sent, Endpoint(endpoints, "TOP_GAINERS_LOSERS"), [])
      ensures |sent.query| == 2
      ensures result == Classify(network(sent, timeout))
    {
      sent, result := MakeRequest(Endpoint(endpoints, "TOP_GAINERS_LOSERS"), [], network);
    }

    /** `getCompanyOverview(symbol)`: exactly one extra parameter, `symbol`.
        Without a `COMPANY_OVERVIEW` endpoint the request names the function
        "undefined". */
    method GetCompanyOverview(symbol: string, network: (Request, nat) -> FetchOutcome)
      returns (sent: Request, result: Settled<Envelope>)
      ensures Sends(sent, Endpoint(endpoints, "COMPANY_OVERVIEW"), [("symbol", symbol)])
      ensures |sent.query| == 3 && sent.query[2] == ("symbol", symbol)
      ensures "COMPANY_OVERVIEW" !in endpoints ==> sent.query[0] == ("function", "undefined")
      ensures result == Classify(network(sent, timeout))
    {
      sent, result := MakeRequest(Endpoint(endpoints, "COMPANY_OVERVIEW"), [("symbol", symbol)], network);
    }
  }
}
