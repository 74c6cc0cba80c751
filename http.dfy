/** The response envelope both Netlify functions hand back, and the lookup of
    query-string parameters as JavaScript's truthiness test sees them. */
module Http {
  import opened Json

  /** A response body. `Text` is sent verbatim; `ErrorObject(e)` stands for
      `JSON.stringify({ error: e })` and `ChartAndAth(c, a)` for
      `JSON.stringify({ chart: c, ath: a })`, the encoding itself being left
      abstract. */
  datatype Body =
    | Text(text: string)
    | ErrorObject(error: Json)
    | ChartAndAth(chart: Json, ath: Json)

  datatype Response = Response(statusCode: int, body: Body)

  /** The value of `p[key]` as a truthiness test sees it: an absent parameter
      and an empty one are both "" (falsy). */
  function Param(p: map<string, string>, key: string): (v: string)
    ensures v != "" ==> key in p && p[key] == v
    ensures key in p ==> v == p[key]
  {
    if key in p then p[key] else ""
  }

  /** `v || fallback` for a string `v`. */
  function OrDefault(v: string, fallback: string): (r: string)
    ensures v != "" ==> r == v
    ensures v == "" ==> r == fallback
  {
    if v != "" then v else fallback
  }
}
