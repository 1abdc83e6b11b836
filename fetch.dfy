/** Phase 1 of the pipeline: the decision `fetch_top_articles` takes on
    the outcome of its one NewsAPI request. The request itself (URL
    construction, the HTTP exchange, JSON decoding) is a boundary: its
    classified outcome is the input here. */
module Fetch {
  import opened NewsTypes

  /** What `response.json()` produced for a 200 response. */
  datatype Payload =
    | JsonObject(status: Option<string>, articles: Option<seq<Article>>)
    | JsonOther   // valid JSON that is not an object: `data.get` raises
    | NotJson     // a body that does not decode: `response.json()` raises

  /** The classified outcome of `requests.get`. */
  datatype HttpOutcome =
    | Response(statusCode: int, payload: Payload)
    | RequestFailed   // the request raised (timeout, DNS, refused connection)

  /** The one case in which the fetched list is handed back: HTTP 200 and
      an API status field equal to "ok". */
  predicate Accepted(o: HttpOutcome)
  {
    o.Response? && o.statusCode == 200 && o.payload.JsonObject? && o.payload.status == Some("ok")
  }

  /** The articles `fetch_top_articles` returns for a request outcome.
      Every failure, whether transport, HTTP, decoding or API status,
      degrades to the empty list; nothing is raised. */
  function FetchTopArticles(o: HttpOutcome): (r: seq<Article>)
    ensures Accepted(o) && o.payload.articles.Some? ==> r == o.payload.articles.value
    ensures Accepted(o) && o.payload.articles.None? ==> r == []
    ensures !Accepted(o) ==> r == []
    ensures r != [] ==> Accepted(o) && o.payload.articles == Some(r)
  {
    match o
    case RequestFailed => []
    case Response(code, payload) =>
      if code == 200 then
        match payload
        case JsonObject(status, articles) =>
          if status == Some("ok") then
            match articles
            case Some(list) => list
            case None => []
          else []
        case JsonOther => []
        case NotJson => []
      else []
  }
}
