/**
 * The pieces of net/url and net/http the client touches: a URL object that
 * is copied and modified, the request it builds, and the reply of one round
 * trip. Sending the request is not modelled: a reply is a value.
 */
module Http {
  import opened Wrappers
  import opened Paths
  import opened JsonView

  datatype UrlValue = UrlValue(scheme: string, host: string, path: Path)

  /** A `*url.URL`: a mutable object that several holders may share. */
  class Url {
    var scheme: string
    var host: string
    var path: Path

    constructor (v: UrlValue)
      ensures Value() == v
    {
      scheme, host, path := v.scheme, v.host, v.path;
    }

    function Value(): UrlValue
      reads this
    {
      UrlValue(scheme, host, path)
    }
  }

  /**
   * An `*http.Request` as built: the basic-auth credentials (which become the
   * Authorization header), the headers set besides that one, and the JSON body.
   */
  datatype HttpRequest = HttpRequest(
    httpMethod: string,
    url: UrlValue,
    user: string,
    password: string,
    headers: seq<(string, string)>,
    body: Option<Json>)

  /** A response body: bytes that are not JSON at all, or a JSON document. */
  datatype Body = Malformed | WellFormed(json: Json)

  /** `resp.StatusCode`, `resp.Status` (the status line, e.g. "404 Not Found") and `resp.Body`. */
  datatype Response = Response(statusCode: int, status: string, body: Body)

  /** What `http.DefaultClient.Do` gives back. */
  datatype RoundTrip = Failed(reason: string) | Received(response: Response)
}
