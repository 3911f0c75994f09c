# Market-data access layer of a stock-tracking mobile app

This Dafny project models the data-access layer of a small React Native app
that shows market movers and company fundamentals from an external
market-data provider. The layer has two parts.

- **The transport client** (`services/apiService.js`, module `ApiService`).
  An `ApiService` object holds the base URL, the API key and the timeout.
  `makeRequest` appends `function`, `apikey` and then the caller's parameters
  to the URL's search parameters, one `append` at a time. It then classifies
  what `fetch` settles to:
  - a timeout is raised as an error;
  - a status outside 200-299 gives a failure envelope with
    "HTTP error! status: N";
  - otherwise a truthy `Error Message` field gives a failure carrying that
    message, and a truthy `Note` field gives the fixed rate-limit message;
  - anything else is a success carrying the body and the status.
  - Every failure envelope has status 500.
- **The stock service** (`services/stockService.js`, module `StockService`).
  It turns a failure envelope into a raised error with the envelope's
  message. On success it normalises the payload:
  - each of the three movers lists is numbered from 1 on its own;
  - each record is named from a fixed ticker table, falling back to
    "<ticker> Corp.";
  - prices are written with a "$" prefix;
  - the company overview is a fixed one-to-one key rename that leaves
    missing fields undefined.

Supporting modules:
- `CompanyNames`, `Movers` and `Overview`: the three normalisations of
  `services/stockService.js` (ticker names, movers lists, company overview);
  `StockService` holds the unwrapping and the two fetches.
- `Js`: JSON values and the JavaScript rules the code relies on (truthiness,
  `String()`, property reads, promise settlement).
- `Decimal`: the decimal text of the HTTP status.

In the model, `fetch` is an input: `network(request, timeoutMs)` says how it
settles for that request. A settled promise is `Settled<T>`:
`Resolved(value)` or `Rejected(message)`. The message of a TypeError that the
engine raises by itself is kept symbolic (`EngineText`), because its wording
depends on the engine. Examples are reading `ticker` of a `null` list entry,
calling `.map` on a list field that is not an array, or converting to a string
a parsed object that has its own `toString` key (that key is then not a
callable method, and the object has no other primitive form). Such a
conversion happens in `parseFloat`, in `getCompanyName`'s property lookup and
template literal, and in `new Error(...)`.

Some behaviours of the code are worth stating plainly:
- A timeout is raised out of `makeRequest`; it is not returned as an envelope.
- A body that is not valid JSON is returned as a failure envelope.
- The failure status is 500 for every failure, an HTTP error included,
  because no error the client catches carries a `status`.
- The configuration has no `COMPANY_OVERVIEW` endpoint. So `getCompanyOverview`
  sends `function=undefined`. The model takes the endpoint table as
  configuration and proves this outcome whenever the entry is missing.

## Model

| member | source | states |
|---|---|---|
| `ApiService.ApiService.constructor` | services/apiService.js:4-8 | the client keeps the configured base URL, API key and timeout (plus the endpoint table it reads) |
| `ApiService.SearchParams.Append` | services/apiService.js:21-26 | appending adds exactly one name-value pair at the end of the search parameters |
| `ApiService.ApiService.BuildRequest` | services/apiService.js:20-27 | the query is `function`=endpoint (or "undefined"), `apikey`=key, then every caller parameter in key order, and nothing else; the base URL is unchanged |
| `ApiService.ApiService.MakeRequest` | services/apiService.js:17-81 | the request sent is the one above, and the result is the classification of how `fetch` settled for it under the client's timeout |
| `ApiService.Classify` | services/apiService.js:47-79 | only an abort is raised, always with the timeout message; every failure envelope has status 500; success holds exactly when the status is ok, the body is non-null JSON, and neither `Error Message` nor `Note` is truthy, and then carries that body and status |
| `ApiService.ThrownMessage` | services/apiService.js:55 | for a defined `v`, the message of `new Error(v)` is `v`'s string form; when `v` has none, the envelope carries the conversion's TypeError |
| `ApiService.HttpErrorNamesStatus` | services/apiService.js:48 | the HTTP-error message names the response status; reading it back gives the status |
| `ApiService.HttpErrorFails` | services/apiService.js:47-48 | a status outside 200-299 always fails with exactly "HTTP error! status: " followed by the status's digits, whatever the body; the status reads back from it |
| `ApiService.ErrorMessageFirst` | services/apiService.js:54-56 | a truthy `Error Message` gives a failure carrying that value converted to a string, whatever `Note` holds: a string exactly as given, and a value with no string form the conversion's TypeError |
| `ApiService.NoteMeansRateLimit` | services/apiService.js:58-60 | a truthy `Note` without a truthy `Error Message` gives the fixed rate-limit message, whatever the note says |
| `ApiService.ApiService.GetTopGainersLosers` | services/apiService.js:87-89 | the movers request carries only `function` and `apikey` |
| `ApiService.ApiService.GetCompanyOverview` | services/apiService.js:96-98 | the overview request carries exactly one extra parameter, `symbol`; without a `COMPANY_OVERVIEW` endpoint its `function` is "undefined" |
| `Js.StringOf` | services/stockService.js:36-39 | `String()` of a field succeeds exactly when the value has a string form; `undefined` is "undefined", a string is itself; otherwise the engine's TypeError |
| `Decimal.Show` | services/apiService.js:48 | the status is written as digits only, with no leading zero |
| `Decimal.ValueOfShow` | services/apiService.js:48 | parsing the written status gives the status back |
| `Decimal.ShowInjective` | services/apiService.js:48 | different statuses give different messages |
| `Movers.Dollars` | services/stockService.js:37-39 | `price` and `changeAmount` are "$" followed by the two-decimal rendering of the source field's string form; converting a field with no string form raises a TypeError |
| `Movers.FormatStock` | services/stockService.js:33-41 | a record is built exactly when the entry is not `null` and its ticker, price and change amount have string forms; otherwise it raises the null read or the conversion's TypeError; a record carries the rank, the ticker, change and volume unchanged, the looked-up name and the "$" prices of the entry |
| `Movers.FormatFrom` | services/stockService.js:33-41 | mapping from position k: one record per remaining entry, each ranked by its position in the whole list; the first entry no record can be built for decides the error |
| `Movers.FormatStockList` | services/stockService.js:32-42 | same length as the source list; record i has id i + 1, the ticker, `change_percentage` and `volume` passed through unchanged, the looked-up name and "$" prices; raises exactly when an entry is `null` or has a ticker, price or change amount with no string form, with the error of the first such entry |
| `Movers.FormatList` | services/stockService.js:47-49 | a missing or falsy list is empty; an array is formatted; any other value raises because it has no `map` |
| `Movers.FormatStockData` | services/stockService.js:31-51 | `metadata` and `lastUpdated` are copied; each list is ranked from 1 independently; it raises exactly when one list fails, with the error of the first failing list in the order gainers, losers, most active |
| `Movers.UnconvertiblePriceRaises` | services/stockService.js:37 | an entry whose price is an object with its own `toString` key makes the list raise the conversion's TypeError |
| `Movers.MissingListIsEmpty` | services/stockService.js:47-49 | an absent source list gives an empty list, never an absent one |
| `Movers.NumberingRestarts` | services/stockService.js:33-34 | in each of the three lists the entry at index i has id i + 1 |
| `Movers.ExampleStockFormats` | services/stockService.js:33-41 | one AAPL entry priced "150.00" formats to record 1 named "Apple Inc." priced "$150.00" |
| `Movers.ExampleRecordFormats` | services/stockService.js:33-41 | the AAPL entry at position 0 formats to record 1 named "Apple Inc." with "$150.00" and "$7.50" |
| `Movers.AbsentListFormatsEmpty` | services/stockService.js:47-49 | a list field that is absent formats to the empty list |
| `Movers.MoversExample` | services/stockService.js:44-50 | a payload with only that gainer gives that one gainer and empty loser and most-active lists |
| `CompanyNames.CompanyName` | services/stockService.js:58-105 | the intended lookup: a known ticker gets its table entry, any other ticker the ticker followed by " Corp." |
| `CompanyNames.CompanyNameAsWritten` | services/stockService.js:58-105 | as written, the lookup gives an inherited member exactly for a ticker that is not in the table but names an `Object.prototype` member, and otherwise the intended name |
| `CompanyNames.CompanyNameSpec` | services/stockService.js:58-105 | a known ticker gets its table name; any other ticker gets the ticker followed by " Corp."; the name is never empty |
| `CompanyNames.AppleIsKnown` | services/stockService.js:61 | "AAPL" is named "Apple Inc." |
| `CompanyNames.InheritedNameCounterexample` | services/stockService.js:60-104 | as written, the ticker "toString" finds a member inherited from `Object.prototype` instead of the fallback name |
| `CompanyNames.AsWrittenAgreesElsewhere` | services/stockService.js:104 | for every ticker that is not an `Object.prototype` member name, the code as written gives the intended name |
| `Overview.FormatCompanyOverview` | services/stockService.js:132-161 | every field of the overview is the payload's value under that field's provider key (undefined when missing) |
| `Overview.RenameFollowsTable` | services/stockService.js:132-161 | the object literal reads each output field from its own provider key, whatever the read function |
| `Overview.OverviewFollowsRenames` | services/stockService.js:132-161 | each overview field is exactly the value under its provider key in the rename table, and is undefined exactly when that key is missing |
| `Overview.RenameOneToOne` | services/stockService.js:133-160 | two fields read from the same provider key are the same field |
| `Overview.OverviewIgnoresOtherKeys` | services/stockService.js:132-161 | payloads that agree on the 26 renamed keys give overviews that agree on every field |
| `Overview.OverviewExample` | services/stockService.js:134-143 | a payload with only `Symbol` and `PERatio` gives `symbol` and `peRatio` and leaves every other field undefined |
| `StockService.MoversFromResponse` | services/stockService.js:11-24 | a raised error is re-raised, a failure envelope raises its message, and only a success envelope is formatted, as `formatStockData` of its data |
| `StockService.OverviewFromResponse` | services/stockService.js:112-125 | the result resolves exactly when the envelope succeeded, to `formatCompanyOverview` of its data; a failure raises its message, and a raised error passes through |
| `StockService.FetchTopGainersLosers` | services/stockService.js:11-24 | sends to the client's base URL `function` = the movers endpoint and `apikey` = the client's key, and nothing else; settles as the unwrapping of the classified response |
| `StockService.FetchCompanyOverview` | services/stockService.js:112-125 | sends to the client's base URL `function` = the overview endpoint, `apikey` = the client's key and `symbol`, and nothing else; settles as the unwrapping of the classified response |
| `StockService.TimeoutReachesCaller` | services/stockService.js:12-23 | a timeout reaches the caller of either fetch as the timeout error |
| `StockService.HttpErrorReachesCaller` | services/stockService.js:15-17 | a status outside 200-299 makes either fetch raise exactly the HTTP-error message naming that status |

## Findings

| source | as written | input that shows it | evidently intended | confidence | as-written member | corrected member |
|---|---|---|---|---|---|---|
| services/stockService.js:60-104 | the ticker table is a plain object literal, so `knownTickers[ticker]` also finds members inherited from `Object.prototype`, and the result is a function or object, not a name | ticker "toString" (likewise "constructor", "valueOf", "__proto__", ...) | the table's own entry, else "toString Corp." | not executed; real tickers are upper-case, so this needs an unusual payload | `CompanyNames.InheritedNameCounterexample` | `CompanyNames.CompanyName` |

The rest of the model uses the corrected lookup `CompanyNames.CompanyName`.
`CompanyNameAsWritten` keeps the code's behaviour for comparison.

## Left out

- The network call (`fetch`, `AbortController`, `setTimeout`/`clearTimeout`) is left out. How `fetch` settles is an input (`FetchOutcome`), and a timeout is the `Aborted` case.
- `console.log`/`console.error` is left out. It is logging only.
- The `options`/`options.headers` spread into the `fetch` init is left out. It only configures the host `fetch`.
- Promises and `async` are left out. Each operation returns `Settled<T>`, which records whether it resolves or rejects.
- `parseFloat(...).toFixed(2)` is floating-point formatting. It is the parameter `fixed2`, so only the "$" prefix and where the rendered string comes from are proved.
- JSON numbers are held as the text `String()` gives them. Parsing numbers into doubles is not modelled.
- Serialising the URL (`url.toString()`, percent-encoding) is not modelled. Neither is `new URL` failing on an invalid base URL. The request is the base URL plus the ordered list of parameters.
- `Object.keys` ordering: the caller's parameters are given as a sequence already in that order.
- The wording of engine-raised TypeErrors is left symbolic.
- The constants of `config/api.js` are left out. They are construction parameters (`ApiConfig`), and so is the endpoint table.
- The singleton exports are left out. They are module wiring.
- The screens and the bundler configuration are left out. They are presentation and build setup.
