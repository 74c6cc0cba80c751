# Stock chart proxies: a Dafny model of their decision cores

The repository holds two Netlify functions that forward chart requests from a
browser to Yahoo Finance.

* `Netlify/functions/quote.js` validates the request and fills in defaults.
  It then tries the hosts `query1` and `query2` in order. Each attempt either
  moves on to the next host or answers the caller. A chart error answers 404.
  Any other non-null parsed body is passed through with 200. Running out of hosts
  answers 502.
* `Netlify/functions/yahoo.js` upper-cases the symbol and adds `.NS` unless it
  already ends in `.NS` or `.BO`. It fetches a 2-year and a 5-year daily chart
  for that ticker. It answers 200 with both payloads, or 500 with the error
  message of whatever failed.

The model replaces the network with values. In `quote.js` each host's attempt
is one `Attempt`: a network error, a timeout, or a reply carrying a status, the
body text and the result of `JSON.parse`. In `yahoo.js` each of the two fetches
is one `Download`: the fetch rejected, the body could not be read as JSON, or
the body parsed. Parsed bodies are `Json` values. JavaScript truthiness and
property access on them are stated in `json.dfy`, because the proxies'
decisions depend on both (`json.chart && json.chart.error`,
`description || 'Not found'`, `!p.sym`, `p.range || '3y'`).

Files: `wrappers.dfy` (Option), `json.dfy`, `http.dfy` (response envelope,
query parameters), `quote.dfy` and `quote_lemmas.dfy`, `yahoo.dfy` and
`yahoo_lemmas.dfy`.

Points where the code goes further than the obvious reading:

* A chart with an empty `result` and `"error": null` has a falsy `error`.
  It is therefore passed through as a 200 (`EmptyResultPassesThrough`).
* A body that parses to `null` makes `json.chart` throw inside the same `try`.
  That attempt then moves on to the next host, like an unparseable body.
* The 404 message is the error's `description` whenever that is truthy, even
  when it is not a string. Otherwise it is `"Not found"`.
* `quote.js` tests `p.sym` before trimming it. A symbol made only of blanks
  is therefore not rejected.
* `yahoo.js` never looks at the upstream HTTP status. An error payload that
  parses as JSON still produces a 200.

## Model

| member | source | states |
|---|---|---|
| `Json.Truthy` | Netlify/functions/quote.js:82-83 | JavaScript truthiness as `json.chart && json.chart.error` and `description \|\| 'Not found'` test it: a value is falsy exactly when it is `null`, `false`, `0` or `""`; every array and object is truthy |
| `Json.Member` | Netlify/functions/quote.js:82 | property access for the keys the proxies read (`chart`, `error`, `description`): a value only for an object that has the key, and then that field; inherited properties such as `length` are not modelled |
| `Http.Param` | Netlify/functions/quote.js:23-24 | a query parameter as `!p.sym` sees it: non-empty only if present, and then the supplied value |
| `Http.OrDefault` | Netlify/functions/quote.js:29-30 | `v \|\| fallback`: a supplied non-empty value is kept unchanged, otherwise the fallback is used |
| `Quote.CheckChart` | Netlify/functions/quote.js:81-82 | the parsed body throws exactly when it is `null`, and carries a chart error exactly when `chart` and `chart.error` are both truthy, and the error it carries is `json.chart.error` itself |
| `Quote.ErrorMessage` | Netlify/functions/quote.js:83 | the 404 message is the truthy `description`, or `"Not found"`, and is always truthy |
| `Quote.Classify` | Netlify/functions/quote.js:65-93 | an attempt advances iff it is a network error, a timeout, any non-200 status (429 and 403 included), an unparseable body or a `null` body; a finishing attempt answers 200 with the raw body unchanged iff there is no chart error, and otherwise 404 with the error message |
| `Quote.TryFetch` | Netlify/functions/quote.js:36-94 | hosts are contacted one at a time, in list order, from index `i`, with at most one attempt per remaining host; every contacted host but the last advanced; 502 with the fixed message iff every remaining host advances, and then all were contacted; otherwise the last contacted host's attempt gave the response |
| `Quote.Resolve` | Netlify/functions/quote.js:28-30 | `range` defaults to `3y` and `interval` to `1d` when absent or empty; supplied values are used unchanged |
| `Quote.QueryOf` | Netlify/functions/quote.js:23 | a null parameter object reads as the empty map, otherwise the map itself |
| `Quote.Handler` | Netlify/functions/quote.js:18-34 | OPTIONS answers 200 with an empty body and contacts nothing; 400 `Missing ?sym=` iff the method is not OPTIONS and `sym` is missing or empty, with no host contacted; otherwise at most the two hosts are contacted, in order, each with the resolved query; the status is one of 200, 400, 404, 502; a valid request gets exactly the walk over `query1`, `query2` from index 0 |
| `QuoteLemmas.AdvancingOutcomesInterchangeable` | Netlify/functions/quote.js:65-93 | all ways of advancing are treated identically: swapping one advancing outcome for another anywhere changes neither the response nor the hosts contacted |
| `QuoteLemmas.LaterOutcomesIgnored` | Netlify/functions/quote.js:82-85 | once a host finishes the walk, the later hosts' outcomes do not affect the result, and they are never contacted |
| `QuoteLemmas.FirstFinishDecides` | Netlify/functions/quote.js:36-94 | the first finishing host decides the response, after exactly the hosts before it have been contacted |
| `QuoteLemmas.BothHostsFailing` | Netlify/functions/quote.js:33-42 | a valid request whose two attempts both advance gets 502 after contacting `query1` and then `query2` |
| `QuoteLemmas.FirstHostAnswers` | Netlify/functions/quote.js:33-37 | when `query1` finishes, its response is returned and `query2` is not contacted |
| `QuoteLemmas.SecondHostAnswers` | Netlify/functions/quote.js:33-37 | when `query1` advances and `query2` finishes, `query2`'s response is returned after contacting both hosts in order |
| `QuoteLemmas.EmptyResultPassesThrough` | Netlify/functions/quote.js:82-85 | a chart with an empty result and a `null` error is returned as 200 with the raw body |
| `QuoteLemmas.ChartErrorWithoutDescription` | Netlify/functions/quote.js:83 | a chart error without a description answers 404 `Not found` |
| `Yahoo.UpperChar` | Netlify/functions/yahoo.js:11 | the result is never a lower-case letter; lower-case letters move to upper case, every other character is kept |
| `Yahoo.ToUpper` | Netlify/functions/yahoo.js:11 | upper-casing keeps the length and maps each character independently |
| `Yahoo.Normalize` | Netlify/functions/yahoo.js:11-12 | the ticker has no lower-case letter and ends in `.NS` or `.BO`; it starts with the upper-cased symbol; it is the upper-cased symbol itself when that already ends in `.NS` or `.BO`, and the upper-cased symbol followed by `.NS` otherwise |
| `Yahoo.ChartUrl` | Netlify/functions/yahoo.js:15-18 | the URL is the fixed chart endpoint, then the ticker verbatim (not URL-encoded), then `?range=<range>&interval=1d` |
| `Yahoo.Failure` | Netlify/functions/yahoo.js:20-43 | the error message is that of a download that failed; a rejected fetch takes precedence over an unreadable body; when both fetches reject, the message is that of the one that rejected first; with no rejected fetch, the chart body is read before the ath body |
| `Yahoo.Handler` | Netlify/functions/yahoo.js:4-45 | 400 `Missing sym parameter` iff `sym` is missing or empty, with nothing requested; otherwise both URLs for the normalised ticker are requested; 200 with `{chart, ath}` iff both downloads parsed; otherwise 500 with the failure message |
| `YahooLemmas.ToUpperKeepsUpper` | Netlify/functions/yahoo.js:11 | text with no lower-case letter is unchanged by upper-casing |
| `YahooLemmas.ToUpperIdempotent` | Netlify/functions/yahoo.js:11 | upper-casing twice equals upper-casing once |
| `YahooLemmas.NormalizeIdempotent` | Netlify/functions/yahoo.js:11-12 | normalising a normalised ticker returns it unchanged |
| `YahooLemmas.NormalizeIgnoresCase` | Netlify/functions/yahoo.js:11-12 | a symbol and its upper-cased form normalise to the same ticker, so the suffix test is case-insensitive |
| `YahooLemmas.LowerCaseBombaySuffixKept` | Netlify/functions/yahoo.js:11-12 | `abc.bo` becomes `ABC.BO` and gets no `.NS` |
| `YahooLemmas.BareSymbolGetsNseSuffix` | Netlify/functions/yahoo.js:11-12 | `tcs` becomes `TCS.NS` |
| `YahooLemmas.ChartAndAthUrlsDifferOnlyInRange` | Netlify/functions/yahoo.js:15-18 | the two URLs have the same length and agree at every position except the range digit, `2` versus `5` |

## Left out

- HTTPS transport (`https.get`, `fetch`, request headers, gzip, streaming body accumulation, `res.resume()`, the 25 s timeout): input/output, replaced by one abstract outcome per host or per download.
- The `quote.js` upstream URL: it depends on `encodeURIComponent`, a library call left abstract. The model records each request as its host and resolved query instead.
- `decodeURIComponent(p.sym.trim())`: a library call, passed to `Quote.Handler` as the function `decode`. Its `URIError` on malformed escapes is not modelled.
- The `JSON.parse` and `JSON.stringify` encodings: parsing is the `parsed` field of an attempt, and the encoded error and `{chart, ath}` bodies are the `Body` constructors.
- Timeout double dispatch: `req.destroy()` may also fire the `error` handler, so the walk could advance twice. The model takes exactly one outcome per attempt.
- A second callback if `callback` itself throws inside the `try` of `quote.js`: a transport quirk with the same effect.
- Random User-Agent choice: nondeterministic, and it does not affect any decision.
- CORS and other response header constants: static data. The model does not record that the 400 and 500 responses of `yahoo.js` carry no CORS headers.
- `Yahoo.UpperChar`: models ASCII upper-casing only. `toUpperCase` also maps non-ASCII letters, some of them to longer text.
- `Yahoo.Handler`: a `null` `queryStringParameters` throws outside the `try`. This is not modelled; the handler takes a plain map of parameters.
- `Yahoo.Handler`: `Promise.all` concurrency is reduced to the two settled downloads. When both fetches reject, the flag `chartRejectsFirst` says which rejected first.
- JSON numbers are reals. Only their truthiness (zero or not) is used.
