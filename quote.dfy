/** The chart proxy of Netlify/functions/quote.js: request validation and
    defaults in `Handler`, and the ordered host fallback in `TryFetch`, with
    the HTTPS transport replaced by one abstract outcome per host. */
module Quote {
  import opened Wrappers
  import opened Json
  import opened Http

  /** The upstream hosts, tried in this order. */
  const Hosts: seq<string> := ["query1", "query2"]

  const Unavailable: Response :=
    Response(502, ErrorObject(JStr("Yahoo Finance unavailable after all attempts")))
  const MissingSym: Response := Response(400, ErrorObject(JStr("Missing ?sym=")))
  const Preflight: Response := Response(200, Text(""))

  /** The inbound Netlify event; `query` is None when
      `queryStringParameters` is null. */
  datatype Event = Event(httpMethod: string, query: Option<map<string, string>>)

  /** The chart query after validation and defaults. */
  datatype ChartQuery = ChartQuery(sym: string, range: string, interval: string)

  /** One upstream GET: the host it went to and the query it carried. */
  datatype Request = Request(host: string, query: ChartQuery)

  /** What one upstream attempt produced. `Reply` is a response with its
      status, its accumulated body text and `JSON.parse` of that text (None
      when parsing threw; for a non-200 status the body is never read). */
  datatype Attempt =
    | NetworkError
    | TimedOut
    | Reply(status: int, raw: string, parsed: Option<Json>)

  /** How one attempt ends: move on to the next host, or answer the caller. */
  datatype Step = Advance | Finish(response: Response)

  /** The requests issued, in order, and the response given to the caller. */
  datatype Walk = Walk(response: Response, contacted: seq<Request>)

  /** What `json.chart && json.chart.error` finds in a parsed body. Reading
      `chart` of `null` throws inside the same try as the parse. */
  datatype ChartCheck = Throws | NoError | ChartError(error: Json)

  function CheckChart(j: Json): (c: ChartCheck)
    ensures c.Throws? <==> j == JNull
    ensures c.ChartError? <==> j != JNull && HasTruthy(j, "chart") && HasTruthy(Member(j, "chart").value, "error")
    ensures c.ChartError? ==> Truthy(c.error)
    ensures c.ChartError? ==> c.error == Member(Member(j, "chart").value, "error").value
  {
    if j == JNull then Throws
    else if !HasTruthy(j, "chart") then NoError
    else
      var chart := Member(j, "chart").value;
      if HasTruthy(chart, "error") then ChartError(Member(chart, "error").value) else NoError
  }

  /** `error.description || 'Not found'`: the message is always truthy. */
  function ErrorMessage(error: Json): (m: Json)
    ensures Truthy(m)
    ensures HasTruthy(error, "description") ==> m == Member(error, "description").value
    ensures !HasTruthy(error, "description") ==> m == JStr("Not found")
  {
    if HasTruthy(error, "description") then Member(error, "description").value else JStr("Not found")
  }

  /** The classification of one attempt. 429 and 403 have their own branch in
      the source but end exactly like every other non-200 status. */
  function Classify(a: Attempt): (s: Step)
    ensures s.Advance? <==>
      (a.NetworkError? || a.TimedOut? || a.status != 200 || a.parsed.None? || a.parsed == Some(JNull))
    ensures s.Finish? ==> s.response.statusCode == 200 || s.response.statusCode == 404
    ensures s.Finish? ==> (s.response.statusCode == 200 <==> CheckChart(a.parsed.value).NoError?)
    ensures s.Finish? && s.response.statusCode == 200 ==> s.response.body == Text(a.raw)
    ensures s.Finish? && s.response.statusCode == 404 ==>
      s.response.body == ErrorObject(ErrorMessage(CheckChart(a.parsed.value).error))
  {
    match a
    case NetworkError => Advance
    case TimedOut => Advance
    case Reply(status, raw, parsed) =>
      if status == 429 || status == 403 then Advance
      else if status != 200 then Advance
      else match parsed
        case None => Advance
        case Some(j) =>
          match CheckChart(j)
          case Throws => Advance
          case ChartError(e) => Finish(Response(404, ErrorObject(ErrorMessage(e))))
          case NoError => Finish(Response(200, Text(raw)))
  }

  /** Try `hosts[i..]` in order; `outcomes[k]` is what host `k` answers.
      The walk stops at the first attempt that finishes, or answers 502 once
      the list is exhausted. */
  function TryFetch(hosts: seq<string>, i: nat, q: ChartQuery, outcomes: seq<Attempt>): (w: Walk)
    requires |outcomes| == |hosts|
    decreases |hosts| - i
    // hosts are contacted one at a time, in list order, from index i
    ensures w.contacted == [] || i + |w.contacted| <= |hosts|
    ensures forall k :: i <= k < i + |w.contacted| ==> w.contacted[k - i] == Request(hosts[k], q)
    // every contacted host but the last one let the walk advance
    ensures forall k :: i <= k < i + |w.contacted| - 1 ==> Classify(outcomes[k]).Advance?
    // 502 exactly when every remaining host advances; then all were tried
    ensures w.response == Unavailable <==> forall k :: i <= k < |hosts| ==> Classify(outcomes[k]).Advance?
    ensures w.response == Unavailable ==> i + |w.contacted| == |hosts| || (w.contacted == [] && i >= |hosts|)
    // otherwise the last host contacted gave the answer
    ensures w.response != Unavailable ==>
      w.contacted != [] && Classify(outcomes[i + |w.contacted| - 1]) == Finish(w.response)
  {
    if i >= |hosts| then Walk(Unavailable, [])
    else
      var here := Request(hosts[i], q);
      match Classify(outcomes[i])
      case Finish(response) => Walk(response, [here])
      case Advance =>
        var rest := TryFetch(hosts, i + 1, q, outcomes);
        Walk(rest.response, [here] + rest.contacted)
  }

  /** `p.sym`, `p.range || '3y'` and `p.interval || '1d'`; `decode` stands
      for `decodeURIComponent(p.sym.trim())`. */
  function Resolve(p: map<string, string>, decode: string -> string): (q: ChartQuery)
    ensures q.sym == decode(Param(p, "sym"))
    ensures q.range == if Param(p, "range") != "" then p["range"] else "3y"
    ensures q.interval == if Param(p, "interval") != "" then p["interval"] else "1d"
  {
    ChartQuery(decode(Param(p, "sym")), OrDefault(Param(p, "range"), "3y"), OrDefault(Param(p, "interval"), "1d"))
  }

  /** `event.queryStringParameters || {}`. */
  function QueryOf(event: Event): (r: map<string, string>)
    ensures event.query.None? ==> r == map[]
    ensures event.query.Some? ==> r == event.query.value
  {
    event.query.GetOr(map[])
  }

  /** The Netlify entry point; `outcomes` are the per-host attempt results. */
  function Handler(event: Event, decode: string -> string, outcomes: seq<Attempt>): (w: Walk)
    requires |outcomes| == |Hosts|
    ensures event.httpMethod == "OPTIONS" ==> w == Walk(Preflight, [])
    ensures w.response.statusCode == 400 <==>
      event.httpMethod != "OPTIONS" && Param(QueryOf(event), "sym") == ""
    ensures w.response.statusCode == 400 ==> w == Walk(MissingSym, [])
    ensures w.contacted != [] ==> event.httpMethod != "OPTIONS" && Param(QueryOf(event), "sym") != ""
    ensures |w.contacted| <= |Hosts|
    ensures forall k :: 0 <= k < |w.contacted| ==>
      w.contacted[k] == Request(Hosts[k], Resolve(QueryOf(event), decode))
    ensures w.response.statusCode in {200, 400, 404, 502}
    ensures event.httpMethod != "OPTIONS" && Param(QueryOf(event), "sym") != "" ==>
      w == TryFetch(Hosts, 0, Resolve(QueryOf(event), decode), outcomes)
  {
    if event.httpMethod == "OPTIONS" then Walk(Preflight, [])
    else
      var p := QueryOf(event);
      if Param(p, "sym") == "" then Walk(MissingSym, [])
      else TryFetch(Hosts, 0, Resolve(p, decode), outcomes)
  }
}
