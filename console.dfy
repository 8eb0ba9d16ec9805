/**
  The hackathon console's backend helpers: the endpoint configuration the
  web page loads (and the URLs it derives from it), the check applied to
  every HTTP response, and the guard in front of the display command.

  The page's own address (`document.URL` with its path, query and fragment
  cleared) and the WHATWG URL parser are parameters, and so is `fetch`:
  a function from a URL to the response and its body text.
 */
module Console {
  import opened Prelude

  /** The endpoint information: an authorization server and, optionally,
      the API, websocket and simulator URLs. */
  datatype Inner = Inner(authServerUrl: string, api: Option<string>, ws: Option<string>, simulatorUrl: Option<string>)

  /** JavaScript truthiness of an optional string: defined and not empty. */
  predicate Truthy(s: Option<string>) {
    s.Some? && s.value != ""
  }

  /** A parsed URL: only the two parts the console reads. */
  datatype Url = Url(protocol: string, host: string)

  datatype TypeError = InvalidUrl(input: string)

  datatype Endpoints = Endpoints(inner: Inner) {

    /** `authServerUrl`. */
    function AuthServerUrl(): string {
      inner.authServerUrl
    }

    /** `apiBase`: the configured API URL when it is set and not empty,
        otherwise the page's own origin. */
    function ApiBase(documentBase: string): (r: string)
      ensures Truthy(inner.api) ==> r == inner.api.value
      ensures !Truthy(inner.api) ==> r == documentBase
    {
      if Truthy(inner.api) then inner.api.value else documentBase
    }

    /** `wsBase`: the configured websocket URL when it is set and not empty;
        otherwise `ws://` for an API served over `http:` and `wss://` for
        any other protocol, followed by the API's host. `new URL` throws a
        TypeError for an API base it cannot parse. */
    function WsBase(documentBase: string, parse: string -> Option<Url>): (r: Result<string, TypeError>)
      ensures Truthy(inner.ws) ==> r == Ok(inner.ws.value)
      ensures !Truthy(inner.ws) ==> (r.Err? <==> parse(ApiBase(documentBase)).None?)
      ensures !Truthy(inner.ws) && r.Ok? ==>
        var u := parse(ApiBase(documentBase)).value;
        && (u.protocol == "http:" ==> r.value == "ws://" + u.host)
        && (u.protocol != "http:" ==> r.value == "wss://" + u.host)
    {
      if Truthy(inner.ws) then Ok(inner.ws.value)
      else
        match parse(ApiBase(documentBase))
        case None => Err(InvalidUrl(ApiBase(documentBase)))
        case Some(url) =>
          var protocol := if url.protocol == "http:" then "ws" else "wss";
          Ok(protocol + "://" + url.host)
    }

    /** `simulatorUrl`. */
    function SimulatorUrl(): Option<string> {
      inner.simulatorUrl
    }

    /** `api(path)`. */
    method Api(documentBase: string, path: Option<string>) returns (r: string)
      ensures r == JoinUrl(ApiBase(documentBase), path)
    {
      r := JoinUrlIn(ApiBase(documentBase), path);
    }

    /** `ws(path)`: the TypeError of `wsBase` propagates. */
    method Ws(documentBase: string, parse: string -> Option<Url>, path: Option<string>) returns (r: Result<string, TypeError>)
      ensures r.Err? <==> WsBase(documentBase, parse).Err?
      ensures r.Ok? ==> r.value == JoinUrl(WsBase(documentBase, parse).value, path)
    {
      var base := WsBase(documentBase, parse);
      if base.Err? {
        return Err(base.error);
      }
      var joined := JoinUrlIn(base.value, path);
      r := Ok(joined);
    }
  }

  /** `new Endpoints(inner)`: without an inner object, an empty
      authorization server URL and nothing else. */
  function NewEndpoints(inner: Option<Inner>): (e: Endpoints)
    ensures inner.Some? ==> e.inner == inner.value
    ensures inner.None? ==> e.AuthServerUrl() == "" && e.inner.api.None? && e.inner.ws.None? && e.SimulatorUrl().None?
  {
    if inner.Some? then Endpoints(inner.value) else Endpoints(Inner("", None, None, None))
  }

  predicate AllSlashes(s: string) {
    forall i :: 0 <= i < |s| ==> s[i] == '/'
  }

  /** `base` without its trailing slashes. */
  function TrimTrailingSlashes(base: string): (r: string)
    ensures |r| <= |base| && r == base[..|r|]
    ensures AllSlashes(base[|r|..])
    ensures r == [] || r[|r| - 1] != '/'
    decreases |base|
  {
    if |base| > 0 && base[|base| - 1] == '/' then TrimTrailingSlashes(base[..|base| - 1]) else base
  }

  predicate StartsWithSlash(s: string) {
    |s| > 0 && s[0] == '/'
  }

  /** `url(base, path)`: the base without trailing slashes and, when a path
      is given, one `/` unless the path already starts with one, then the
      path as it is. */
  function JoinUrl(base: string, path: Option<string>): string {
    TrimTrailingSlashes(base) + (if path.None? then "" else (if StartsWithSlash(path.value) then "" else "/") + path.value)
  }

  /** `url(base, path)` as the page runs it: strip one slash at a time. */
  method JoinUrlIn(base: string, path: Option<string>) returns (result: string)
    ensures result == JoinUrl(base, path)
  {
    result := base;
    while |result| > 0 && result[|result| - 1] == '/'
      invariant TrimTrailingSlashes(result) == TrimTrailingSlashes(base)
      decreases |result|
    {
      result := result[..|result| - 1];
    }
    if path.Some? {
      if !StartsWithSlash(path.value) {
        result := result + "/";
      }
      result := result + path.value;
    }
  }

  /** Without a path, the result never ends in a slash, and applying `url`
      to it again changes nothing. */
  lemma JoinUrlIdempotent(base: string)
    ensures var once := JoinUrl(base, None);
      (once == [] || once[|once| - 1] != '/') && JoinUrl(once, None) == once
  {
    assert TrimTrailingSlashes(base) + "" == TrimTrailingSlashes(base);
  }

  /** Trailing slashes of the base do not change the result. */
  lemma {:induction false} TrailingSlashesIgnored(base: string, slashes: string, path: Option<string>)
    requires AllSlashes(slashes)
    ensures JoinUrl(base + slashes, path) == JoinUrl(base, path)
    decreases |slashes|
  {
    if slashes != [] {
      var shorter := slashes[..|slashes| - 1];
      assert (base + slashes)[..|base + slashes| - 1] == base + shorter;
      TrailingSlashesIgnored(base, shorter, path);
    } else {
      assert base + slashes == base;
    }
  }

  /** With a path and a base that has no trailing slash, base and path are
      joined by exactly one slash: the path's own leading slash, or one
      inserted when the path has none. */
  lemma JoinedBySlash(base: string, path: string)
    requires base == [] || base[|base| - 1] != '/'
    ensures StartsWithSlash(path) ==> JoinUrl(base, Some(path)) == base + path
    ensures !StartsWithSlash(path) ==> JoinUrl(base, Some(path)) == base + "/" + path
  {
  }

  // -----------------------------------------------------------------------
  // Responses

  datatype Response = Response(status: int, statusText: string)

  /** `Response.ok`. */
  predicate IsOk(response: Response) {
    200 <= response.status <= 299
  }

  /** The error `checkError` throws. */
  datatype RequestError = RequestError(status: int, statusText: string, message: string, description: Option<string>)

  /** `checkError(response, failure)` once the body text is read: an OK
      response is passed on unchanged; any other becomes a RequestError with
      the response's status and status text, the failure message (or
      `Request failed` when there is none or it is empty), and the body. */
  function CheckError(response: Response, failure: Option<string>, body: string): (r: Result<Response, RequestError>)
    ensures r.Ok? <==> IsOk(response)
    ensures r.Ok? ==> r.value == response
    ensures r.Err? ==>
      && r.error.status == response.status && r.error.statusText == response.statusText
      && r.error.message == (if Truthy(failure) then failure.value else "Request failed")
      && r.error.description == Some(body)
  {
    var message := if Truthy(failure) then failure.value else "Request failed";
    if !IsOk(response) then Err(RequestError(response.status, response.statusText, message, Some(body)))
    else Ok(response)
  }

  // -----------------------------------------------------------------------
  // The display command

  /** The state of something loaded in the background. */
  datatype Service<T> = Init | Loading | Loaded(payload: T) | ServiceError(error: string)

  /** Why a display command was rejected. */
  datatype Rejection = MissingEndpoints | RequestFailed(error: RequestError)

  const DISPLAY_PATH: string := "/api/commands/v1alpha1/display"

  /** `setDisplay`: rejected with "Missing endpoints" unless the endpoints
      are loaded; otherwise the command goes to the API's display path and
      its response passes through `checkError`. `fetch` gives the response
      and its body text for a URL. */
  method SetDisplay(endpoints: Service<Endpoints>, documentBase: string, fetch: string -> (Response, string))
    returns (url: Option<string>, r: Result<Response, Rejection>)
    ensures !endpoints.Loaded? <==> r == Err(MissingEndpoints)
    ensures !endpoints.Loaded? ==> url.None?
    ensures endpoints.Loaded? ==>
      && url == Some(JoinUrl(endpoints.payload.ApiBase(documentBase), Some(DISPLAY_PATH)))
      && var checked := CheckError(fetch(url.value).0, None, fetch(url.value).1);
         r == (if checked.Ok? then Ok(checked.value) else Err(RequestFailed(checked.error)))
  {
    if !endpoints.Loaded? {
      return None, Err(MissingEndpoints);
    }
    var target := endpoints.payload.Api(documentBase, Some(DISPLAY_PATH));
    url := Some(target);
    var (response, body) := fetch(target);
    var checked := CheckError(response, None, body);
    r := if checked.Ok? then Ok(checked.value) else Err(RequestFailed(checked.error));
  }

  /** The display path always lands right after the API base without a
      doubled slash. */
  lemma DisplayUrl(e: Endpoints, documentBase: string)
    ensures JoinUrl(e.ApiBase(documentBase), Some(DISPLAY_PATH)) == TrimTrailingSlashes(e.ApiBase(documentBase)) + DISPLAY_PATH
  {
  }
}
