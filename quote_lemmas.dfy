/** Properties of the host fallback in Netlify/functions/quote.js that relate
    several walks to each other. */
module QuoteLemmas {
  import opened Wrappers
  import opened Json
  import opened Http
  import opened Quote

  /** Every way of advancing is the same to the walk: a network error, a
      timeout, a 429, a 403, any other non-200 status, an unparseable body
      or a `null` body may replace one another at any position without
      changing what is contacted or answered. */
  lemma {:induction false} AdvancingOutcomesInterchangeable(
    hosts: seq<string>, i: nat, q: ChartQuery, outcomes: seq<Attempt>, k: nat, other: Attempt)
    requires |outcomes| == |hosts| && k < |outcomes|
    requires Classify(outcomes[k]).Advance? && Classify(other).Advance?
    ensures TryFetch(hosts, i, q, outcomes[k := other]) == TryFetch(hosts, i, q, outcomes)
    decreases |hosts| - i
  {
    var swapped := outcomes[k := other];
    if i < |hosts| {
      if i == k {
        assert Classify(swapped[i]).Advance?;
      } else {
        assert swapped[i] == outcomes[i];
      }
      if Classify(outcomes[i]).Advance? {
        AdvancingOutcomesInterchangeable(hosts, i + 1, q, outcomes, k, other);
        var rest := TryFetch(hosts, i + 1, q, outcomes);
        assert TryFetch(hosts, i, q, swapped) == Walk(rest.response, [Request(hosts[i], q)] + rest.contacted);
      }
    }
  }

  /** Short circuit: once host `j` finishes the walk, what the later hosts
      would have answered is irrelevant, and they are never contacted. */
  lemma {:induction false} LaterOutcomesIgnored(
    hosts: seq<string>, i: nat, q: ChartQuery, outcomes: seq<Attempt>, later: seq<Attempt>, j: nat)
    requires |outcomes| == |hosts| == |later|
    requires i <= j < |hosts| && Classify(outcomes[j]).Finish?
    requires outcomes[..j + 1] == later[..j + 1]
    ensures TryFetch(hosts, i, q, later) == TryFetch(hosts, i, q, outcomes)
    ensures |TryFetch(hosts, i, q, outcomes).contacted| <= j - i + 1
    decreases |hosts| - i
  {
    assert outcomes[i] == outcomes[..j + 1][i] == later[..j + 1][i] == later[i];
    if Classify(outcomes[i]).Advance? {
      LaterOutcomesIgnored(hosts, i + 1, q, outcomes, later, j);
      var rest := TryFetch(hosts, i + 1, q, outcomes);
      assert TryFetch(hosts, i, q, outcomes) == Walk(rest.response, [Request(hosts[i], q)] + rest.contacted);
    }
  }

  /** The first host whose attempt finishes decides the response, and the
      hosts before it are exactly the ones contacted before it. */
  lemma FirstFinishDecides(
    hosts: seq<string>, i: nat, q: ChartQuery, outcomes: seq<Attempt>, j: nat)
    requires |outcomes| == |hosts|
    requires i <= j < |hosts| && Classify(outcomes[j]).Finish?
    requires forall k :: i <= k < j ==> Classify(outcomes[k]).Advance?
    ensures TryFetch(hosts, i, q, outcomes).response == Classify(outcomes[j]).response
    ensures |TryFetch(hosts, i, q, outcomes).contacted| == j - i + 1
  {
    var w := TryFetch(hosts, i, q, outcomes);
    assert w.response != Unavailable;
    var last := i + |w.contacted| - 1;
    assert Classify(outcomes[last]).Finish?;
    assert last == j;
  }

  /** With both hosts advancing, a valid request ends in 502 after trying
      `query1` and then `query2`. */
  lemma BothHostsFailing(event: Event, decode: string -> string, outcomes: seq<Attempt>)
    requires |outcomes| == |Hosts|
    requires event.httpMethod != "OPTIONS" && Param(QueryOf(event), "sym") != ""
    requires Classify(outcomes[0]).Advance? && Classify(outcomes[1]).Advance?
    ensures Handler(event, decode, outcomes) ==
      Walk(Unavailable, [Request("query1", Resolve(QueryOf(event), decode)),
                         Request("query2", Resolve(QueryOf(event), decode))])
  {
    var w := Handler(event, decode, outcomes);
    assert w.response == Unavailable;
    assert |w.contacted| == 2;
  }

  /** An answer from `query1` ends the walk there: `query2` is not contacted. */
  lemma FirstHostAnswers(event: Event, decode: string -> string, outcomes: seq<Attempt>)
    requires |outcomes| == |Hosts|
    requires event.httpMethod != "OPTIONS" && Param(QueryOf(event), "sym") != ""
    requires Classify(outcomes[0]).Finish?
    ensures Handler(event, decode, outcomes) ==
      Walk(Classify(outcomes[0]).response, [Request("query1", Resolve(QueryOf(event), decode))])
  {
    FirstFinishDecides(Hosts, 0, Resolve(QueryOf(event), decode), outcomes, 0);
  }

  /** When `query1` advances and `query2` finishes, the response is
      `query2`'s, after contacting both hosts in order. */
  lemma SecondHostAnswers(event: Event, decode: string -> string, outcomes: seq<Attempt>)
    requires |outcomes| == |Hosts|
    requires event.httpMethod != "OPTIONS" && Param(QueryOf(event), "sym") != ""
    requires Classify(outcomes[0]).Advance? && Classify(outcomes[1]).Finish?
    ensures Handler(event, decode, outcomes) ==
      Walk(Classify(outcomes[1]).response,
           [Request("query1", Resolve(QueryOf(event), decode)),
            Request("query2", Resolve(QueryOf(event), decode))])
  {
    FirstFinishDecides(Hosts, 0, Resolve(QueryOf(event), decode), outcomes, 1);
  }

  /** Yahoo's "no data" shape, `{"chart": {"result": [], "error": null}}`,
      has a falsy `error`, so it is passed through as a 200. */
  lemma EmptyResultPassesThrough(raw: string)
    ensures Classify(Reply(200, raw, Some(JObj(map["chart" := JObj(map["result" := JArr([]), "error" := JNull])]))))
      == Finish(Response(200, Text(raw)))
  {
  }

  /** A chart error without a description is reported as "Not found". */
  lemma ChartErrorWithoutDescription(raw: string, code: string)
    ensures Classify(Reply(200, raw, Some(JObj(map["chart" := JObj(map["error" := JObj(map["code" := JStr(code)])])]))))
      == Finish(Response(404, ErrorObject(JStr("Not found"))))
  {
  }
}
