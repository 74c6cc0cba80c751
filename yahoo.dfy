/** The two-window proxy of Netlify/functions/yahoo.js: ticker normalisation,
    the two upstream URLs and the success/failure envelope, with the two
    concurrent fetches reduced to their settled outcomes. */
module Yahoo {
  import opened Json
  import opened Http

  const MissingSym: Response := Response(400, Text("Missing sym parameter"))
  const ChartEndpoint: string := "https://query1.finance.yahoo.com/v8/finance/chart/"

  predicate IsLower(c: char) { 'a' <= c <= 'z' }

  /** ASCII upper-casing of one character. */
  function UpperChar(c: char): (u: char)
    ensures !IsLower(u)
    ensures IsLower(c) ==> u as int == c as int - 32
    ensures !IsLower(c) ==> u == c
  {
    if IsLower(c) then (c as int - 32) as char else c
  }

  /** `s.toUpperCase()` restricted to ASCII letters. */
  function ToUpper(s: string): (r: string)
    ensures |r| == |s|
    ensures forall k :: 0 <= k < |s| ==> r[k] == UpperChar(s[k])
  {
    if s == [] then [] else [UpperChar(s[0])] + ToUpper(s[1..])
  }

  predicate NoLower(s: string) {
    forall k :: 0 <= k < |s| ==> !IsLower(s[k])
  }

  predicate EndsWith(s: string, suffix: string) {
    |suffix| <= |s| && s[|s| - |suffix|..] == suffix
  }

  predicate HasExchangeSuffix(s: string) {
    EndsWith(s, ".NS") || EndsWith(s, ".BO")
  }

  /** Upper-case the symbol and add `.NS` unless it already names an
      exchange. The suffix test sees the upper-cased text, so it is in effect
      case-insensitive. */
  function Normalize(sym: string): (ticker: string)
    ensures NoLower(ticker)
    ensures HasExchangeSuffix(ticker)
    ensures |ticker| == |sym| || |ticker| == |sym| + 3
    ensures ticker[..|sym|] == ToUpper(sym)
    ensures HasExchangeSuffix(ToUpper(sym)) ==> ticker == ToUpper(sym)
    ensures !HasExchangeSuffix(ToUpper(sym)) ==> ticker == ToUpper(sym) + ".NS"
  {
    var upper := ToUpper(sym);
    if !EndsWith(upper, ".NS") && !EndsWith(upper, ".BO") then upper + ".NS" else upper
  }

  /** The chart URL for `ticker` over `range` days of daily bars; the ticker
      is embedded as it is, without URL encoding. */
  function ChartUrl(ticker: string, range: string): (url: string)
    ensures |url| == |ChartEndpoint| + |ticker| + |range| + 19
    ensures url[..|ChartEndpoint|] == ChartEndpoint
    ensures url[|ChartEndpoint|..|ChartEndpoint| + |ticker|] == ticker
    ensures url[|ChartEndpoint| + |ticker|..] == "?range=" + range + "&interval=1d"
  {
    ChartEndpoint + ticker + "?range=" + range + "&interval=1d"
  }

  /** How one of the two `fetch` calls settled: the fetch promise rejected,
      the response arrived but `.json()` rejected, or the body parsed. The
      upstream HTTP status is never inspected. */
  datatype Download =
    | Rejected(message: string)
    | Unreadable(message: string)
    | Loaded(json: Json)

  /** The response and the URLs requested upstream. */
  datatype Served = Served(response: Response, requested: seq<string>)

  /** The message `catch` receives. `Promise.all` rejects with whichever
      fetch rejects first (`chartRejectsFirst` says which when both do); only
      when both fetches succeed are the bodies read, chart before ath. */
  function Failure(chart: Download, ath: Download, chartRejectsFirst: bool): (m: string)
    requires !(chart.Loaded? && ath.Loaded?)
    ensures chart.Rejected? && !ath.Rejected? ==> m == chart.message
    ensures ath.Rejected? && !chart.Rejected? ==> m == ath.message
    ensures chart.Rejected? && ath.Rejected? ==>
      m == if chartRejectsFirst then chart.message else ath.message
    ensures !chart.Rejected? && !ath.Rejected? ==>
      m == if chart.Unreadable? then chart.message else ath.message
    ensures (!chart.Loaded? && m == chart.message) || (!ath.Loaded? && m == ath.message)
  {
    if chart.Rejected? && (chartRejectsFirst || !ath.Rejected?) then chart.message
    else if ath.Rejected? then ath.message
    else if chart.Unreadable? then chart.message
    else ath.message
  }

  /** The Netlify entry point for query parameters `query`. */
  function Handler(query: map<string, string>, chart: Download, ath: Download, chartRejectsFirst: bool): (s: Served)
    ensures s.response.statusCode == 400 <==> Param(query, "sym") == ""
    ensures s.response.statusCode == 400 ==> s == Served(MissingSym, [])
    ensures s.response.statusCode != 400 ==>
      s.requested == [ChartUrl(Normalize(query["sym"]), "2y"), ChartUrl(Normalize(query["sym"]), "5y")]
    ensures s.response.statusCode == 200 <==> Param(query, "sym") != "" && chart.Loaded? && ath.Loaded?
    ensures s.response.statusCode == 200 ==> s.response.body == ChartAndAth(chart.json, ath.json)
    ensures s.response.statusCode in {200, 400, 500}
    ensures s.response.statusCode == 500 ==>
      s.response.body == ErrorObject(JStr(Failure(chart, ath, chartRejectsFirst)))
  {
    var sym := Param(query, "sym");
    if sym == "" then Served(MissingSym, [])
    else
      var ticker := Normalize(sym);
      var requested := [ChartUrl(ticker, "2y"), ChartUrl(ticker, "5y")];
      if chart.Loaded? && ath.Loaded? then
        Served(Response(200, ChartAndAth(chart.json, ath.json)), requested)
      else
        Served(Response(500, ErrorObject(JStr(Failure(chart, ath, chartRejectsFirst)))), requested)
  }
}
