/**
 * The static configuration of the catalog client and the one endpoint it
 * calls: `GET https://api.pexels.com/videos/search` with the query
 * parameters `query`, `page` and `per_page`.
 */
module ApiConfiguration {

  const BaseURL: string := "https://api.pexels.com"
  const DefaultQuery: string := "people"
  const PerPage: int := 80

  datatype APIEndpoint = SearchVideos(query: string, page: int, perPage: int)

  /** A value of Swift's `[String: Any]` parameter dictionary: here a string or an integer. */
  datatype ParamValue = Text(text: string) | Number(number: int)

  /** The request URL; it does not depend on the case's associated values. */
  function Url(e: APIEndpoint): (r: string)
    ensures r == "https://api.pexels.com/videos/search"
  {
    match e
    case SearchVideos(_, _, _) => BaseURL + "/videos/search"
  }

  /** The query parameters: exactly `query`, `page` and `per_page`, carrying the case's values. */
  function Parameters(e: APIEndpoint): (r: map<string, ParamValue>)
    ensures r.Keys == {"query", "page", "per_page"}
    ensures r["query"] == Text(e.query)
    ensures r["page"] == Number(e.page)
    ensures r["per_page"] == Number(e.perPage)
  {
    match e
    case SearchVideos(query, page, perPage) =>
      map["query" := Text(query), "page" := Number(page), "per_page" := Number(perPage)]
  }

  /** Two endpoints that build the same parameters are the same request. */
  lemma ParametersDetermineEndpoint(a: APIEndpoint, b: APIEndpoint)
    requires Parameters(a) == Parameters(b)
    ensures a == b
  {
    assert Parameters(a)["query"] == Parameters(b)["query"];
    assert Parameters(a)["page"] == Parameters(b)["page"];
    assert Parameters(a)["per_page"] == Parameters(b)["per_page"];
  }
}
