/**
 * The Context7 request, response and configuration records, and the HTTP
 * request the tool sends. The JSON form of the response is not modelled:
 * these are the values `serde_json` would produce.
 */
module Context7Types {
  import opened Wrappers

  /** An HTTP status code (`u16`). */
  type StatusCode = x: int | 0 <= x < 0x1_0000

  datatype Context7Request = Context7Request(
    library: string,
    topic: Option<string>,
    version: Option<string>,
    page: Option<nat>)

  datatype Snippet = Snippet(title: Option<string>, content: string)

  datatype Pagination = Pagination(currentPage: nat, totalPages: nat, hasNext: bool)

  datatype Context7Response = Context7Response(snippets: seq<Snippet>, pagination: Option<Pagination>)

  datatype Context7Config = Context7Config(apiKey: Option<string>, baseUrl: string)

  /** The endpoint both the tool and the connection test use. */
  const Context7BaseUrl := "https://context7.com/api/v2"

  /** A GET request as the builder leaves it: URL, headers and query parameters in the order added. */
  datatype HttpRequest = HttpRequest(url: string, headers: seq<(string, string)>, query: seq<(string, string)>)

  /** The index of the first parameter at or after `k` called `name`, or `|query|` when there is none. */
  function FirstParamFrom(query: seq<(string, string)>, name: string, k: nat): (i: nat)
    requires k <= |query|
    ensures k <= i <= |query|
    ensures forall j :: k <= j < i ==> query[j].0 != name
    ensures i < |query| ==> query[i].0 == name
    decreases |query| - k
  {
    if k == |query| || query[k].0 == name then k else FirstParamFrom(query, name, k + 1)
  }

  /** The value of the first query parameter called `name`, if any. */
  function ParamValue(query: seq<(string, string)>, name: string): (v: Option<string>)
    ensures v.None? <==> forall i :: 0 <= i < |query| ==> query[i].0 != name
    ensures v.Some? ==> exists i ::
      && 0 <= i < |query|
      && query[i] == (name, v.value)
      && forall j :: 0 <= j < i ==> query[j].0 != name
  {
    var i := FirstParamFrom(query, name, 0);
    if i < |query| then Some(query[i].1) else None
  }
}
